/**
 * The tables the billing arithmetic reads, as the rows a query returns, and the pieces
 * shared by the weekly report and the dashboard: the date window, sums over rows, the
 * linen line value and the per-property management fee.
 */
module Ledger {
  /** A calendar day as a day number. The tables hold ISO "YYYY-MM-DD" text, which `date()` compares in the same order. */
  type Date = nat
  type PropertyId = int
  type ItemId = int

  /** A row of `limpezas`: the property, the day, `horas_trabalhadas` and `valor_total`. */
  datatype Cleaning = Cleaning(property: PropertyId, date: Date, hours: real, value: real)

  /** A row of `consumo_enxoval`. */
  datatype LinenUse = LinenUse(property: PropertyId, item: ItemId, date: Date, quantity: int)

  /** A row of `tipos_enxoval` or `suprimentos`: a catalogue item's name and its current unit price. */
  datatype CatalogItem = CatalogItem(name: string, unitPrice: real)

  /** A row of `reposicao_suprimentos`, with the amount actually spent (`valor_gasto`). */
  datatype Restock = Restock(property: PropertyId, supply: ItemId, date: Date, quantity: int, spent: real)

  /** The tables as they stand when a query runs. */
  datatype Store = Store(
    properties: map<PropertyId, string>,      // imoveis: id -> endereco
    cleanings: seq<Cleaning>,                 // limpezas
    linenCatalog: map<ItemId, CatalogItem>,   // tipos_enxoval
    linenUses: seq<LinenUse>,                 // consumo_enxoval
    supplyCatalog: map<ItemId, CatalogItem>,  // suprimentos
    restocks: seq<Restock>)                   // reposicao_suprimentos

  /** The fixed weekly management charge per property, `50.0` in both the report and the dashboard. */
  const FeePerProperty: real := 50.0

  /** `date(x) >= date(start)`: the window has a start and no end. */
  predicate InWindow(date: Date, start: Date) {
    date >= start
  }

  // ---------------------------------------------------------------- sums and filters

  /** The sum of `f` over the rows, added in row order (as the source's `+=` loops do). */
  function Sum<T>(s: seq<T>, f: T -> real): real {
    if s == [] then 0.0 else Sum(s[..|s| - 1], f) + f(s[|s| - 1])
  }

  /** The same for whole-number columns (quantities). */
  function SumInt<T>(s: seq<T>, f: T -> int): int {
    if s == [] then 0 else SumInt(s[..|s| - 1], f) + f(s[|s| - 1])
  }

  lemma {:induction false} SumAppend<T>(a: seq<T>, b: seq<T>, f: T -> real)
    ensures Sum(a + b, f) == Sum(a, f) + Sum(b, f)
    decreases |b|
  {
    if b != [] {
      assert (a + b)[..|a + b| - 1] == a + b[..|b| - 1];
      SumAppend(a, b[..|b| - 1], f);
    } else {
      assert a + b == a;
    }
  }

  /** Changing one row changes the sum by the difference in that row's value. */
  lemma {:induction false} SumUpdate<T>(s: seq<T>, k: nat, x: T, f: T -> real)
    requires k < |s|
    ensures Sum(s[k := x], f) == Sum(s, f) - f(s[k]) + f(x)
    decreases |s|
  {
    var n := |s| - 1;
    if k < n {
      assert s[k := x][..n] == s[..n][k := x];
      SumUpdate(s[..n], k, x, f);
    } else {
      assert s[k := x][..n] == s[..n];
    }
  }

  lemma {:induction false} SumIntUpdate<T>(s: seq<T>, k: nat, x: T, f: T -> int)
    requires k < |s|
    ensures SumInt(s[k := x], f) == SumInt(s, f) - f(s[k]) + f(x)
    decreases |s|
  {
    var n := |s| - 1;
    if k < n {
      assert s[k := x][..n] == s[..n][k := x];
      SumIntUpdate(s[..n], k, x, f);
    } else {
      assert s[k := x][..n] == s[..n];
    }
  }

  /** Two column functions that agree on every row have the same sum. */
  lemma {:induction false} SumCongruent<T>(s: seq<T>, f: T -> real, g: T -> real)
    requires forall i :: 0 <= i < |s| ==> f(s[i]) == g(s[i])
    ensures Sum(s, f) == Sum(s, g)
    decreases |s|
  {
    if s != [] {
      SumCongruent(s[..|s| - 1], f, g);
    }
  }

  /**
   * The rows satisfying `p`, in their original order: a `WHERE` clause. Every matching
   * row is kept as often as it occurs, and no other row is.
   */
  function Filter<T(!new)>(s: seq<T>, p: T -> bool): (r: seq<T>)
    ensures |r| <= |s|
    ensures forall x :: x in r <==> x in s && p(x)
    ensures forall i :: 0 <= i < |r| ==> p(r[i])
    ensures forall x :: multiset(r)[x] == if p(x) then multiset(s)[x] else 0
  {
    if s == [] then []
    else
      var r := Filter(s[..|s| - 1], p);
      assert s == s[..|s| - 1] + [s[|s| - 1]];
      if p(s[|s| - 1]) then r + [s[|s| - 1]] else r
  }

  /** Two conditions that agree on every row select the same rows. */
  lemma {:induction false} FilterCongruent<T(!new)>(s: seq<T>, p: T -> bool, q: T -> bool)
    requires forall x :: x in s ==> (p(x) <==> q(x))
    ensures Filter(s, p) == Filter(s, q)
    decreases |s|
  {
    if s != [] {
      assert forall x :: x in s[..|s| - 1] ==> x in s;
      FilterCongruent(s[..|s| - 1], p, q);
    }
  }

  // ---------------------------------------------------------------- cleanings

  function HoursOf(c: Cleaning): real { c.hours }
  function ValueOf(c: Cleaning): real { c.value }

  /** The cleanings dated on or after `start`, whatever their property. */
  function CleaningsSince(cs: seq<Cleaning>, start: Date): seq<Cleaning> {
    Filter(cs, (c: Cleaning) => InWindow(c.date, start))
  }

  /** `SELECT DISTINCT imovel_id FROM limpezas WHERE date(data) >= date(start)`. */
  function CleanedProperties(cs: seq<Cleaning>, start: Date): set<PropertyId> {
    set c | c in cs && InWindow(c.date, start) :: c.property
  }

  /** A property counts toward the fee exactly when some cleaning of the window is at it. */
  lemma CleanedPropertiesMembers(cs: seq<Cleaning>, start: Date, p: PropertyId)
    ensures p in CleanedProperties(cs, start) <==> exists c :: c in CleaningsSince(cs, start) && c.property == p
  {
  }

  /** `50.0 * COUNT(DISTINCT imovel_id)` over the window's cleanings. */
  function ManagementFee(cs: seq<Cleaning>, start: Date): (fee: real)
    ensures fee >= 0.0
  {
    FeePerProperty * |CleanedProperties(cs, start)| as real
  }

  /** Distinct properties can be no more than the cleanings they come from. */
  lemma {:induction false} CleanedPropertiesAtMostCleanings(cs: seq<Cleaning>, start: Date)
    ensures |CleanedProperties(cs, start)| <= |CleaningsSince(cs, start)|
    decreases |cs|
  {
    if cs != [] {
      var init, last := cs[..|cs| - 1], cs[|cs| - 1];
      assert cs == init + [last];
      CleanedPropertiesAtMostCleanings(init, start);
      var before := CleanedProperties(init, start);
      if InWindow(last.date, start) {
        assert CleanedProperties(cs, start) == before + {last.property};
      } else {
        assert CleanedProperties(cs, start) == before;
      }
    }
  }

  /** The fee is zero exactly when no cleaning falls in the window, and at most 50 per cleaning. */
  lemma ManagementFeeBounds(cs: seq<Cleaning>, start: Date)
    ensures ManagementFee(cs, start) == 0.0 <==> CleaningsSince(cs, start) == []
    ensures ManagementFee(cs, start) <= FeePerProperty * |CleaningsSince(cs, start)| as real
  {
    CleanedPropertiesAtMostCleanings(cs, start);
    var w := CleaningsSince(cs, start);
    if w != [] {
      assert w[0] in cs && InWindow(w[0].date, start);
      assert w[0].property in CleanedProperties(cs, start);
    } else {
      assert CleanedProperties(cs, start) == {};
    }
  }

  /** One more cleaning adds a fee of 50 exactly when it is in the window and its property had no cleaning there yet. */
  lemma FeeAfterCleaning(cs: seq<Cleaning>, start: Date, c: Cleaning)
    ensures ManagementFee(cs + [c], start) == ManagementFee(cs, start) +
      (if InWindow(c.date, start) && c.property !in CleanedProperties(cs, start) then FeePerProperty else 0.0)
  {
    var w := CleanedProperties(cs, start);
    if InWindow(c.date, start) {
      assert CleanedProperties(cs + [c], start) == w + {c.property};
      if c.property !in w {
        assert |w + {c.property}| == |w| + 1;
      } else {
        assert w + {c.property} == w;
      }
    } else {
      assert CleanedProperties(cs + [c], start) == w;
    }
  }

  // ---------------------------------------------------------------- linen

  /**
   * The value of one linen use: quantity times the item's unit price as the catalogue
   * holds it when the query runs (not when the use was recorded).
   */
  function LinenLineValue(u: LinenUse, catalog: map<ItemId, CatalogItem>): (v: real)
    requires u.item in catalog
    ensures v == 0.0 <==> u.quantity == 0 || catalog[u.item].unitPrice == 0.0
    ensures u.quantity >= 0 && catalog[u.item].unitPrice >= 0.0 ==> v >= 0.0
  {
    u.quantity as real * catalog[u.item].unitPrice
  }

  /** Repricing a catalogue item changes the value of every use of it, past ones included. */
  lemma RepricingChangesPastLines(u: LinenUse, catalog: map<ItemId, CatalogItem>, price: real)
    requires u.item in catalog
    ensures LinenLineValue(u, catalog[u.item := catalog[u.item].(unitPrice := price)]) == u.quantity as real * price
    ensures price != catalog[u.item].unitPrice && u.quantity != 0 ==>
      LinenLineValue(u, catalog[u.item := catalog[u.item].(unitPrice := price)]) != LinenLineValue(u, catalog)
  {
    var q := u.quantity as real;
    var was := catalog[u.item].unitPrice;
    if price != was && u.quantity != 0 {
      assert q * price - q * was == q * (price - was);
    }
  }

  /** A row of the linen list (`carregar_itens_enxoval`): who, what, how many, the current price and the line value. */
  datatype LinenLine = LinenLine(address: string, name: string, quantity: int, date: Date, unitPrice: real, value: real)

  /** The uses that survive the list's joins: their property and their catalogue item both exist. */
  function Listed(properties: map<PropertyId, string>, catalog: map<ItemId, CatalogItem>): LinenUse -> bool {
    (u: LinenUse) => u.property in properties && u.item in catalog
  }

  /** The line the list shows for a use: the property's address, the item's name and its price today. */
  function ListingLine(u: LinenUse, properties: map<PropertyId, string>, catalog: map<ItemId, CatalogItem>): LinenLine
    requires u.property in properties && u.item in catalog
  {
    LinenLine(properties[u.property], catalog[u.item].name, u.quantity, u.date,
              catalog[u.item].unitPrice, LinenLineValue(u, catalog))
  }

  /**
   * The linen list's query: every use joined with its property and catalogue item (uses
   * whose property or item is missing drop out of the join), valued at today's price.
   * There is one line per surviving use, in order, showing the catalogue's current unit
   * price, and each line's value is its quantity times that price.
   */
  function LinenListing(uses: seq<LinenUse>, properties: map<PropertyId, string>, catalog: map<ItemId, CatalogItem>): (lines: seq<LinenLine>)
    ensures |lines| == |Filter(uses, Listed(properties, catalog))|
    ensures forall i :: 0 <= i < |lines| ==>
      lines[i] == ListingLine(Filter(uses, Listed(properties, catalog))[i], properties, catalog)
  {
    if uses == [] then []
    else
      var init, u := uses[..|uses| - 1], uses[|uses| - 1];
      var lines := LinenListing(init, properties, catalog);
      var matching := Filter(init, Listed(properties, catalog));
      assert Filter(uses, Listed(properties, catalog)) == if Listed(properties, catalog)(u) then matching + [u] else matching;
      if u.property in properties && u.item in catalog then lines + [ListingLine(u, properties, catalog)]
      else lines
  }

  /** Each line of the list shows the use's quantity, the catalogue's unit price as it is now, and the use's value at that price. */
  lemma ListingAtCurrentPrice(uses: seq<LinenUse>, properties: map<PropertyId, string>, catalog: map<ItemId, CatalogItem>, i: nat)
    requires i < |LinenListing(uses, properties, catalog)|
    ensures Filter(uses, Listed(properties, catalog))[i].item in catalog
    ensures LinenListing(uses, properties, catalog)[i].unitPrice == catalog[Filter(uses, Listed(properties, catalog))[i].item].unitPrice
    ensures LinenListing(uses, properties, catalog)[i].quantity == Filter(uses, Listed(properties, catalog))[i].quantity
    ensures LinenListing(uses, properties, catalog)[i].value == LinenLineValue(Filter(uses, Listed(properties, catalog))[i], catalog)
  {
    var matching := Filter(uses, Listed(properties, catalog));
    var u := matching[i];
    assert u in matching;
    assert Listed(properties, catalog)(u);
    assert LinenListing(uses, properties, catalog)[i] == ListingLine(u, properties, catalog);
  }
}
