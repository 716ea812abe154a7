/**
 * `atualizar_dashboard`: the dashboard's cards for the last week. Each card runs one
 * aggregate query (`COUNT(*)` and a `SUM` that is NULL over no rows); the "to receive"
 * card adds the cleaning and linen sums, each NULL read as 0, and the management fee.
 * Unlike the weekly report, these queries do not join the properties table, and the
 * linen sum is taken row by row.
 */
module Dashboard {
  import opened Wrappers
  import opened Ledger
  import WeeklyReport

  /** A card's query result: `COUNT(*)` and `SUM(...)`. */
  datatype Card = Card(count: nat, sum: Option<real>)

  /** `x or 0` on a SUM that may be NULL. */
  function OrZero(v: Option<real>): real {
    match v
    case Some(x) => x
    case None => 0.0
  }

  function SpentOf(r: Restock): real { r.spent }

  /** SQL's SUM: NULL over no rows. */
  function SqlSum<T>(rows: seq<T>, f: T -> real): (r: Option<real>)
    ensures r.None? <==> rows == []
    ensures OrZero(r) == Sum(rows, f)
  {
    if rows == [] then None else Some(Sum(rows, f))
  }

  /** The uses the linen card's join keeps: dated on or after the start, with their item in the catalogue. */
  function Priced(catalog: map<ItemId, CatalogItem>, start: Date): LinenUse -> bool {
    (u: LinenUse) => InWindow(u.date, start) && u.item in catalog
  }

  /** A use's `preco_unitario * quantidade` at the catalogue's current price (0 for an item it does not hold). */
  function PricedValue(catalog: map<ItemId, CatalogItem>): LinenUse -> real {
    (u: LinenUse) => if u.item in catalog then LinenLineValue(u, catalog) else 0.0
  }

  /** The uses in the window whose item is in the catalogue: `consumo_enxoval JOIN tipos_enxoval`, with no property join. */
  function PricedUses(uses: seq<LinenUse>, catalog: map<ItemId, CatalogItem>, start: Date): (r: seq<LinenUse>)
    ensures forall u :: (multiset(r)[u] == if InWindow(u.date, start) && u.item in catalog then multiset(uses)[u] else 0)
  {
    Filter(uses, Priced(catalog, start))
  }

  /** `SUM(t.preco_unitario * c.quantidade)` taken use by use: the sum of the kept uses' values (0 over none). */
  function LinenValueSince(uses: seq<LinenUse>, catalog: map<ItemId, CatalogItem>, start: Date): (v: real)
    ensures v == Sum(PricedUses(uses, catalog, start), PricedValue(catalog))
  {
    if uses == [] then 0.0
    else
      var init, u := uses[..|uses| - 1], uses[|uses| - 1];
      var kept := PricedUses(init, catalog, start);
      assert PricedUses(uses, catalog, start) == if Priced(catalog, start)(u) then kept + [u] else kept;
      assert (kept + [u])[..|kept|] == kept;
      LinenValueSince(init, catalog, start) +
        (if InWindow(u.date, start) && u.item in catalog then LinenLineValue(u, catalog) else 0.0)
  }

  /** The cleanings card: SUM is NULL exactly when COUNT is 0, and otherwise the values of the window's cleanings. */
  function CleaningCard(store: Store, start: Date): (c: Card)
    ensures c.count == |CleaningsSince(store.cleanings, start)|
    ensures c.sum.None? <==> c.count == 0
    ensures OrZero(c.sum) == Sum(CleaningsSince(store.cleanings, start), ValueOf)
  {
    var rows := CleaningsSince(store.cleanings, start);
    Card(|rows|, SqlSum(rows, ValueOf))
  }

  /** The linen card: SUM is NULL exactly when COUNT is 0, and otherwise quantity times current price over the kept uses. */
  function LinenCard(store: Store, start: Date): (c: Card)
    ensures c.count == |PricedUses(store.linenUses, store.linenCatalog, start)|
    ensures c.sum.None? <==> c.count == 0
    ensures OrZero(c.sum) == Sum(PricedUses(store.linenUses, store.linenCatalog, start), PricedValue(store.linenCatalog))
  {
    var rows := PricedUses(store.linenUses, store.linenCatalog, start);
    Card(|rows|, if rows == [] then None else Some(LinenValueSince(store.linenUses, store.linenCatalog, start)))
  }

  /** The supplies card: SUM is NULL exactly when COUNT is 0, and otherwise the spend of the window's restocks. */
  function SupplyCard(store: Store, start: Date): (c: Card)
    ensures c.count == |Filter(store.restocks, (r: Restock) => InWindow(r.date, start))|
    ensures c.sum.None? <==> c.count == 0
    ensures OrZero(c.sum) == Sum(Filter(store.restocks, (r: Restock) => InWindow(r.date, start)), SpentOf)
  {
    var rows := Filter(store.restocks, (r: Restock) => InWindow(r.date, start));
    Card(|rows|, SqlSum(rows, SpentOf))
  }

  /**
   * The "to receive" card: the cleaning values plus quantity times current price of the
   * linen used, over everything dated on or after the start, plus 50 per distinct cleaned
   * property; a card with no rows contributes 0. Supply spend is shown but not added.
   */
  function DashboardTotal(store: Store, start: Date): (t: real)
    ensures t == Sum(CleaningsSince(store.cleanings, start), ValueOf) +
                 Sum(PricedUses(store.linenUses, store.linenCatalog, start), PricedValue(store.linenCatalog)) +
                 FeePerProperty * |CleanedProperties(store.cleanings, start)| as real
  {
    OrZero(CleaningCard(store, start).sum) + OrZero(LinenCard(store, start).sum) + ManagementFee(store.cleanings, start)
  }

  /** Supply restocks never change the total. */
  lemma DashboardIgnoresSupplies(store: Store, start: Date, restocks: seq<Restock>)
    ensures DashboardTotal(store.(restocks := restocks), start) == DashboardTotal(store, start)
  {
  }

  /** Every in-window cleaning and priced linen use refers to a property that exists. */
  predicate PropertiesExist(store: Store, start: Date) {
    (forall c :: c in store.cleanings && InWindow(c.date, start) ==> c.property in store.properties) &&
    (forall u :: u in store.linenUses && InWindow(u.date, start) && u.item in store.linenCatalog ==> u.property in store.properties)
  }

  /** When every priced use has an existing property, the report's linen rows are worth the dashboard's linen sum. */
  lemma {:induction false} LinenRowsWorth(uses: seq<LinenUse>, properties: map<PropertyId, string>,
                                          catalog: map<ItemId, CatalogItem>, start: Date)
    requires forall u :: u in uses && InWindow(u.date, start) && u.item in catalog ==> u.property in properties
    ensures Sum(WeeklyReport.LinenRows(uses, properties, catalog, start), WeeklyReport.RowAmount)
         == LinenValueSince(uses, catalog, start)
    decreases |uses|
  {
    if uses != [] {
      var init, u := uses[..|uses| - 1], uses[|uses| - 1];
      assert u in uses;
      forall x | x in init && InWindow(x.date, start) && x.item in catalog ensures x.property in properties {
        assert x in uses;
      }
      LinenRowsWorth(init, properties, catalog, start);
      var rows := WeeklyReport.LinenRows(init, properties, catalog, start);
      if InWindow(u.date, start) && u.item in catalog {
        var r := WeeklyReport.LinenRow(u, properties, catalog);
        assert (rows + [r])[..|rows|] == rows;
      }
    }
  }

  /**
   * When no in-window cleaning or priced linen use refers to a missing property, the
   * dashboard's total is the grand total of the corrected weekly report over the same
   * window, and also of the report as written when each linen name has one price, whatever
   * rows SQLite picks for the report's bare columns.
   */
  lemma DashboardAgreesWithReport(store: Store, start: Date, linenPick: WeeklyReport.Pick, supplyPick: WeeklyReport.Pick)
    requires PropertiesExist(store, start)
    ensures DashboardTotal(store, start) == WeeklyReport.CorrectedReport(store, start, linenPick, supplyPick).grandTotal
    ensures WeeklyReport.PricesByName(store.linenCatalog) ==>
      DashboardTotal(store, start) == WeeklyReport.Report(store, start, linenPick, supplyPick).grandTotal
  {
    FilterCongruent(store.cleanings,
      (c: Cleaning) => InWindow(c.date, start),
      (c: Cleaning) => InWindow(c.date, start) && c.property in store.properties);
    assert CleaningsSince(store.cleanings, start) == WeeklyReport.ReportCleanings(store, start);
    LinenRowsWorth(store.linenUses, store.properties, store.linenCatalog, start);
    WeeklyReport.CorrectedReportSums(store, start, linenPick, supplyPick);
  }
}
