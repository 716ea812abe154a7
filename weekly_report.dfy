/**
 * `gerar_relatorio_semanal`: the weekly report's totals. Three queries fetch the cleanings,
 * the grouped linen use and the grouped supply restocks dated on or after the window start,
 * and three loops add them up with `+=`; then the management fee and the grand total.
 * The document itself (tables, headings, the file name) is not modelled.
 */
module WeeklyReport {
  import opened Ledger

  /** The grouping key of the linen and supply queries: `GROUP BY i.endereco, <item>.nome`. */
  datatype Key = Key(address: string, name: string)

  /**
   * A joined row before grouping: its key, its quantity, the value the query selects as a
   * bare (non-aggregated) column, and the row's own amount. For linen the bare column is
   * `t.preco_unitario` and the amount is quantity times that price; for supplies both are
   * `r.valor_gasto`.
   */
  datatype Row = Row(key: Key, quantity: int, bare: real, amount: real)

  /**
   * One row of the grouped result: its number of rows, `SUM(quantidade)`, the bare column
   * read from one of its rows, and the sum of the amounts, which the report never selects.
   */
  datatype Group = Group(key: Key, count: nat, quantity: int, bare: real, amount: real)

  /**
   * Which row SQLite reads a bare column from, which it leaves unspecified: for each key,
   * the position of that row among the group's rows in row order (the first row when the
   * group has fewer). Every row of every group is some pick's choice, so what is proved
   * for every pick holds whatever SQLite does.
   */
  type Pick = Key -> nat

  function RowQuantity(r: Row): int { r.quantity }
  function RowAmount(r: Row): real { r.amount }
  function RowBareValue(r: Row): real { r.quantity as real * r.bare }
  function GroupQuantity(g: Group): int { g.quantity }
  function GroupAmount(g: Group): real { g.amount }
  function GroupBare(g: Group): real { g.bare }
  /** `row[2] * row[3]` of the linen loop: the group's summed quantity times its bare unit price. */
  function GroupBareValue(g: Group): real { g.quantity as real * g.bare }

  // ---------------------------------------------------------------- the queries

  /** The cleaning query: `limpezas JOIN imoveis WHERE date(l.data) >= date(start)`. */
  function ReportCleanings(store: Store, start: Date): (rows: seq<Cleaning>)
    ensures forall c :: (multiset(rows)[c] ==
      if InWindow(c.date, start) && c.property in store.properties then multiset(store.cleanings)[c] else 0)
  {
    Filter(store.cleanings, (c: Cleaning) => InWindow(c.date, start) && c.property in store.properties)
  }

  /** The linen uses the report's query keeps: dated on or after the start, with their property and item present. */
  function LinenJoined(properties: map<PropertyId, string>, catalog: map<ItemId, CatalogItem>, start: Date): LinenUse -> bool {
    (u: LinenUse) => InWindow(u.date, start) && u.property in properties && u.item in catalog
  }

  /** The joined row of a linen use: keyed by address and item name, with the item's current price. */
  function LinenRow(u: LinenUse, properties: map<PropertyId, string>, catalog: map<ItemId, CatalogItem>): Row
    requires u.property in properties && u.item in catalog
  {
    Row(Key(properties[u.property], catalog[u.item].name), u.quantity, catalog[u.item].unitPrice, LinenLineValue(u, catalog))
  }

  /** The linen query before grouping: one joined row for each kept use, in order. */
  function LinenRows(uses: seq<LinenUse>, properties: map<PropertyId, string>,
                     catalog: map<ItemId, CatalogItem>, start: Date): (rows: seq<Row>)
    ensures |rows| == |Filter(uses, LinenJoined(properties, catalog, start))|
    ensures forall i :: 0 <= i < |rows| ==>
      rows[i] == LinenRow(Filter(uses, LinenJoined(properties, catalog, start))[i], properties, catalog)
  {
    if uses == [] then []
    else
      var init, u := uses[..|uses| - 1], uses[|uses| - 1];
      var rows := LinenRows(init, properties, catalog, start);
      var kept := Filter(init, LinenJoined(properties, catalog, start));
      assert Filter(uses, LinenJoined(properties, catalog, start)) ==
        if LinenJoined(properties, catalog, start)(u) then kept + [u] else kept;
      if InWindow(u.date, start) && u.property in properties && u.item in catalog then
        rows + [LinenRow(u, properties, catalog)]
      else rows
  }

  /** The restocks the supply query keeps: dated on or after the start, with their property and supply present. */
  function SupplyJoined(properties: map<PropertyId, string>, catalog: map<ItemId, CatalogItem>, start: Date): Restock -> bool {
    (s: Restock) => InWindow(s.date, start) && s.property in properties && s.supply in catalog
  }

  /** The joined row of a restock: keyed by address and supply name, with its spend as bare column and amount. */
  function SupplyRow(s: Restock, properties: map<PropertyId, string>, catalog: map<ItemId, CatalogItem>): Row
    requires s.property in properties && s.supply in catalog
  {
    Row(Key(properties[s.property], catalog[s.supply].name), s.quantity, s.spent, s.spent)
  }

  /** The supply query before grouping: one joined row for each kept restock, in order. */
  function SupplyRows(restocks: seq<Restock>, properties: map<PropertyId, string>,
                      catalog: map<ItemId, CatalogItem>, start: Date): (rows: seq<Row>)
    ensures |rows| == |Filter(restocks, SupplyJoined(properties, catalog, start))|
    ensures forall i :: 0 <= i < |rows| ==>
      rows[i] == SupplyRow(Filter(restocks, SupplyJoined(properties, catalog, start))[i], properties, catalog)
  {
    if restocks == [] then []
    else
      var init, s := restocks[..|restocks| - 1], restocks[|restocks| - 1];
      var rows := SupplyRows(init, properties, catalog, start);
      var kept := Filter(init, SupplyJoined(properties, catalog, start));
      assert Filter(restocks, SupplyJoined(properties, catalog, start)) ==
        if SupplyJoined(properties, catalog, start)(s) then kept + [s] else kept;
      if InWindow(s.date, start) && s.property in properties && s.supply in catalog then
        rows + [SupplyRow(s, properties, catalog)]
      else rows
  }

  /** One more use adds its joined row exactly when the report's query keeps it. */
  lemma LinenRowsAppend(uses: seq<LinenUse>, properties: map<PropertyId, string>,
                        catalog: map<ItemId, CatalogItem>, start: Date, u: LinenUse)
    ensures LinenRows(uses + [u], properties, catalog, start) ==
      if InWindow(u.date, start) && u.property in properties && u.item in catalog
      then LinenRows(uses, properties, catalog, start) + [LinenRow(u, properties, catalog)]
      else LinenRows(uses, properties, catalog, start)
  {
    assert (uses + [u])[..|uses|] == uses;
  }

  /** One more restock adds its joined row exactly when the supply query keeps it. */
  lemma SupplyRowsAppend(restocks: seq<Restock>, properties: map<PropertyId, string>,
                         catalog: map<ItemId, CatalogItem>, start: Date, s: Restock)
    ensures SupplyRows(restocks + [s], properties, catalog, start) ==
      if InWindow(s.date, start) && s.property in properties && s.supply in catalog
      then SupplyRows(restocks, properties, catalog, start) + [SupplyRow(s, properties, catalog)]
      else SupplyRows(restocks, properties, catalog, start)
  {
    assert (restocks + [s])[..|restocks|] == restocks;
  }

  /** A use's joined row is worth its quantity times its unit price. */
  lemma LinenRowValue(u: LinenUse, properties: map<PropertyId, string>, catalog: map<ItemId, CatalogItem>)
    requires u.property in properties && u.item in catalog
    ensures RowAmount(LinenRow(u, properties, catalog)) == RowBareValue(LinenRow(u, properties, catalog))
  {
  }

  /** Each joined linen row is worth its quantity times its unit price, the price of a catalogue item of its name. */
  lemma LinenRowsPricedByCatalog(uses: seq<LinenUse>, properties: map<PropertyId, string>,
                                 catalog: map<ItemId, CatalogItem>, start: Date, i: nat)
    requires i < |LinenRows(uses, properties, catalog, start)|
    ensures RowAmount(LinenRows(uses, properties, catalog, start)[i]) == RowBareValue(LinenRows(uses, properties, catalog, start)[i])
    ensures exists item :: item in catalog && LinenRows(uses, properties, catalog, start)[i].key.name == catalog[item].name &&
                           LinenRows(uses, properties, catalog, start)[i].bare == catalog[item].unitPrice
  {
    var kept := Filter(uses, LinenJoined(properties, catalog, start));
    var u := kept[i];
    assert u in kept;
    assert LinenRows(uses, properties, catalog, start)[i] == LinenRow(u, properties, catalog);
    LinenRowValue(u, properties, catalog);
    assert u.item in catalog;
  }

  // ---------------------------------------------------------------- GROUP BY

  /** The index of the group with key `k`, or -1. */
  function FindGroup(gs: seq<Group>, k: Key): (i: int)
    ensures -1 <= i < |gs|
    ensures 0 <= i ==> gs[i].key == k
    ensures i == -1 ==> forall j :: 0 <= j < |gs| ==> gs[j].key != k
  {
    if gs == [] then -1
    else if gs[|gs| - 1].key == k then |gs| - 1
    else FindGroup(gs[..|gs| - 1], k)
  }

  /** A new group holding one row, which supplies its bare value. */
  function NewGroup(r: Row): Group {
    Group(r.key, 1, r.quantity, r.bare, r.amount)
  }

  /** A group with one more row of its key: the count, quantity and amount grow; the bare value is this row's if the pick falls on it. */
  function Grow(g: Group, r: Row, pick: Pick): Group {
    g.(count := g.count + 1, quantity := g.quantity + r.quantity, amount := g.amount + r.amount,
       bare := if g.count == pick(g.key) then r.bare else g.bare)
  }

  /** Adds one row to the groups: into its key's group, or as a new group after the others. */
  function AddRow(gs: seq<Group>, r: Row, pick: Pick): (gs': seq<Group>)
    ensures |gs| <= |gs'| <= |gs| + 1 && gs' != []
  {
    var i := FindGroup(gs, r.key);
    if i < 0 then gs + [NewGroup(r)] else gs[i := Grow(gs[i], r, pick)]
  }

  /** The grouped result of the rows. */
  function GroupBy(rows: seq<Row>, pick: Pick): (gs: seq<Group>)
    ensures |gs| <= |rows|
    ensures gs == [] <==> rows == []
  {
    if rows == [] then [] else AddRow(GroupBy(rows[..|rows| - 1], pick), rows[|rows| - 1], pick)
  }

  predicate DistinctKeys(gs: seq<Group>) {
    forall i, j :: 0 <= i < j < |gs| ==> gs[i].key != gs[j].key
  }

  /** The keys of the groups. */
  function KeysOf(gs: seq<Group>): set<Key> {
    set g | g in gs :: g.key
  }

  /**
   * Adding a row leaves every other group as it was and every key in place, gives the row's
   * group either its old bare value or the row's, and appends a group only for a new key.
   */
  lemma AddRowShape(gs: seq<Group>, r: Row, pick: Pick)
    ensures |AddRow(gs, r, pick)| == if FindGroup(gs, r.key) < 0 then |gs| + 1 else |gs|
    ensures forall j :: 0 <= j < |gs| ==> AddRow(gs, r, pick)[j].key == gs[j].key
    ensures forall j :: 0 <= j < |gs| && j != FindGroup(gs, r.key) ==> AddRow(gs, r, pick)[j] == gs[j]
    ensures FindGroup(gs, r.key) >= 0 ==>
      AddRow(gs, r, pick)[FindGroup(gs, r.key)].bare in {gs[FindGroup(gs, r.key)].bare, r.bare}
    ensures FindGroup(gs, r.key) < 0 ==> AddRow(gs, r, pick)[|gs|].key == r.key && AddRow(gs, r, pick)[|gs|].bare == r.bare
    ensures KeysOf(AddRow(gs, r, pick)) == KeysOf(gs) + {r.key}
  {
    var gs' := AddRow(gs, r, pick);
    var i := FindGroup(gs, r.key);
    if i >= 0 {
      assert gs[i] in gs;
      forall k | k in KeysOf(gs) ensures k in KeysOf(gs') {
        var g :| g in gs && g.key == k;
        var j :| 0 <= j < |gs| && gs[j] == g;
        assert gs'[j] in gs';
      }
    } else {
      assert gs' == gs + [NewGroup(r)];
    }
  }

  /** Adding a row adds its quantity and its amount to the column totals. */
  lemma AddRowSums(gs: seq<Group>, r: Row, pick: Pick)
    ensures SumInt(AddRow(gs, r, pick), GroupQuantity) == SumInt(gs, GroupQuantity) + r.quantity
    ensures Sum(AddRow(gs, r, pick), GroupAmount) == Sum(gs, GroupAmount) + r.amount
  {
    var i := FindGroup(gs, r.key);
    if i < 0 {
      var g := NewGroup(r);
      assert (gs + [g])[..|gs|] == gs;
    } else {
      var g := Grow(gs[i], r, pick);
      SumIntUpdate(gs, i, g, GroupQuantity);
      SumUpdate(gs, i, g, GroupAmount);
    }
  }

  /** Adding a row to distinct groups keeps them distinct. */
  lemma AddRowDistinct(gs: seq<Group>, r: Row, pick: Pick)
    requires DistinctKeys(gs)
    ensures DistinctKeys(AddRow(gs, r, pick))
  {
    AddRowShape(gs, r, pick);
  }

  /** Grouping keeps the totals of the summed columns, whatever the pick. */
  lemma {:induction false} GroupByKeepsSums(rows: seq<Row>, pick: Pick)
    ensures SumInt(GroupBy(rows, pick), GroupQuantity) == SumInt(rows, RowQuantity)
    ensures Sum(GroupBy(rows, pick), GroupAmount) == Sum(rows, RowAmount)
    decreases |rows|
  {
    if rows != [] {
      GroupByKeepsSums(rows[..|rows| - 1], pick);
      AddRowSums(GroupBy(rows[..|rows| - 1], pick), rows[|rows| - 1], pick);
    }
  }

  /** Grouping makes exactly one group for each key that occurs among the rows. */
  lemma {:induction false} GroupByKeys(rows: seq<Row>, pick: Pick)
    ensures DistinctKeys(GroupBy(rows, pick))
    ensures KeysOf(GroupBy(rows, pick)) == set r | r in rows :: r.key
    decreases |rows|
  {
    if rows != [] {
      var init, r := rows[..|rows| - 1], rows[|rows| - 1];
      assert rows == init + [r];
      GroupByKeys(init, pick);
      AddRowShape(GroupBy(init, pick), r, pick);
      AddRowDistinct(GroupBy(init, pick), r, pick);
      assert (set x | x in rows :: x.key) == (set x | x in init :: x.key) + {r.key};
    }
  }

  /** Some row of `rows` has the group's key and carries the group's bare value. */
  predicate BareFromRows(g: Group, rows: seq<Row>) {
    exists k :: 0 <= k < |rows| && rows[k].key == g.key && rows[k].bare == g.bare
  }

  /** Whatever the pick, the bare column of every group is the value of some row with the group's key. */
  lemma {:induction false} GroupByBare(rows: seq<Row>, pick: Pick)
    ensures forall j :: 0 <= j < |GroupBy(rows, pick)| ==> BareFromRows(GroupBy(rows, pick)[j], rows)
    decreases |rows|
  {
    if rows != [] {
      var init, r := rows[..|rows| - 1], rows[|rows| - 1];
      GroupByBare(init, pick);
      var gs := GroupBy(init, pick);
      var i := FindGroup(gs, r.key);
      assert GroupBy(rows, pick) == AddRow(gs, r, pick);
      AddRowShape(gs, r, pick);
      forall j | 0 <= j < |GroupBy(rows, pick)| ensures BareFromRows(GroupBy(rows, pick)[j], rows) {
        var g := GroupBy(rows, pick)[j];
        if j < |gs| && g.bare == gs[j].bare {
          assert BareFromRows(gs[j], init);
          var k :| 0 <= k < |init| && init[k].key == gs[j].key && init[k].bare == gs[j].bare;
          assert rows[k] == init[k];
        } else {
          assert j == i || j == |gs|;
          assert rows[|rows| - 1] == r;
        }
      }
    }
  }

  /** The rows of one group: those with key `k`, in row order. */
  function OfKey(k: Key): Row -> bool {
    (r: Row) => r.key == k
  }

  /** One more row joins the rows of its own key and no other. */
  lemma OfKeyAppend(init: seq<Row>, r: Row, k: Key)
    ensures Filter(init + [r], OfKey(k)) ==
            if r.key == k then Filter(init, OfKey(k)) + [r] else Filter(init, OfKey(k))
  {
  }

  /** A key that no row carries has no rows. */
  lemma OfKeyAbsent(rows: seq<Row>, k: Key)
    requires k !in set r | r in rows :: r.key
    ensures Filter(rows, OfKey(k)) == []
  {
  }

  /**
   * A group is the aggregate of the rows of its key: `COUNT` of them, `SUM(quantidade)` over
   * them and the sum of their amounts.
   */
  predicate AggregatesKey(g: Group, rows: seq<Row>) {
    g.count == |Filter(rows, OfKey(g.key))| &&
    g.quantity == SumInt(Filter(rows, OfKey(g.key)), RowQuantity) &&
    g.amount == Sum(Filter(rows, OfKey(g.key)), RowAmount)
  }

  /** A new group made from a row of a key no earlier row carries aggregates the rows of that key. */
  lemma NewGroupAggregates(init: seq<Row>, r: Row)
    requires r.key !in set x | x in init :: x.key
    ensures AggregatesKey(NewGroup(r), init + [r])
  {
  }

  /** Growing the group of a row's key by that row keeps it the aggregate of its key's rows. */
  lemma GrowAggregates(g: Group, init: seq<Row>, r: Row, pick: Pick)
    requires g.key == r.key && AggregatesKey(g, init)
    ensures AggregatesKey(Grow(g, r, pick), init + [r])
  {
  }

  /**
   * Whatever the pick, every group is the aggregate of the rows of its key: its count,
   * `SUM(quantidade)` and amount are taken over exactly those rows. With `GroupByKeys`, each
   * key that occurs has one such group.
   */
  lemma {:induction false} GroupByAggregates(rows: seq<Row>, pick: Pick)
    ensures forall j :: 0 <= j < |GroupBy(rows, pick)| ==> AggregatesKey(GroupBy(rows, pick)[j], rows)
    decreases |rows|
  {
    if rows != [] {
      var init, r := rows[..|rows| - 1], rows[|rows| - 1];
      assert rows == init + [r];
      GroupByAggregates(init, pick);
      GroupByKeys(init, pick);
      var gs := GroupBy(init, pick);
      var i := FindGroup(gs, r.key);
      assert GroupBy(rows, pick) == AddRow(gs, r, pick);
      AddRowShape(gs, r, pick);
      forall j | 0 <= j < |GroupBy(rows, pick)| ensures AggregatesKey(GroupBy(rows, pick)[j], rows) {
        var g := GroupBy(rows, pick)[j];
        if j == i {
          GrowAggregates(gs[i], init, r, pick);
        } else if j < |gs| {
          assert g == gs[j];
          assert g.key != r.key;
          OfKeyAppend(init, r, g.key);
        } else {
          assert i < 0 && j == |gs|;
          assert r.key !in KeysOf(gs);
          NewGroupAggregates(init, r);
        }
      }
    }
  }

  /** Rows with the same key carry the same bare value. */
  predicate KeyDeterminesBare(rows: seq<Row>) {
    forall i, j :: 0 <= i < |rows| && 0 <= j < |rows| && rows[i].key == rows[j].key ==> rows[i].bare == rows[j].bare
  }

  /** Growing a group whose bare value is the row's adds the row's quantity times that value. */
  lemma GrowGroupBareValue(gs: seq<Group>, i: nat, r: Row, pick: Pick)
    requires i < |gs| && gs[i].bare == r.bare
    ensures Sum(gs[i := Grow(gs[i], r, pick)], GroupBareValue)
         == Sum(gs, GroupBareValue) + RowBareValue(r)
  {
    var g := Grow(gs[i], r, pick);
    SumUpdate(gs, i, g, GroupBareValue);
    var a, b, p := gs[i].quantity as real, r.quantity as real, r.bare;
    assert g.bare == p;
    assert (a + b) * p == a * p + b * p;
  }

  /** A group of one row is worth that row's quantity times bare value. */
  lemma NewGroupBareValue(r: Row)
    ensures GroupBareValue(NewGroup(r)) == RowBareValue(r)
  {
  }

  /** A row with a key not seen before adds its own quantity times bare value. */
  lemma AddRowBareValueNew(gs: seq<Group>, r: Row, pick: Pick)
    requires FindGroup(gs, r.key) < 0
    ensures Sum(AddRow(gs, r, pick), GroupBareValue) == Sum(gs, GroupBareValue) + RowBareValue(r)
  {
    var gs' := gs + [NewGroup(r)];
    assert AddRow(gs, r, pick) == gs';
    assert gs'[..|gs|] == gs && gs'[|gs|] == NewGroup(r);
    assert Sum(gs', GroupBareValue) == Sum(gs, GroupBareValue) + GroupBareValue(NewGroup(r));
    NewGroupBareValue(r);
  }

  /** A row whose bare value agrees with its key's group adds its own quantity times bare value. */
  lemma AddRowBareValue(gs: seq<Group>, r: Row, pick: Pick)
    requires forall j :: 0 <= j < |gs| && gs[j].key == r.key ==> gs[j].bare == r.bare
    ensures Sum(AddRow(gs, r, pick), GroupBareValue) == Sum(gs, GroupBareValue) + RowBareValue(r)
  {
    var i := FindGroup(gs, r.key);
    if i < 0 {
      AddRowBareValueNew(gs, r, pick);
    } else {
      GrowGroupBareValue(gs, i, r, pick);
    }
  }

  /** When the key determines the bare value, a further row agrees with its key's group among the earlier rows. */
  lemma NextRowAgrees(init: seq<Row>, r: Row, pick: Pick)
    requires KeyDeterminesBare(init + [r])
    ensures forall j :: 0 <= j < |GroupBy(init, pick)| && GroupBy(init, pick)[j].key == r.key ==> GroupBy(init, pick)[j].bare == r.bare
  {
    var rows := init + [r];
    var gs := GroupBy(init, pick);
    GroupByBare(init, pick);
    forall j | 0 <= j < |gs| && gs[j].key == r.key ensures gs[j].bare == r.bare {
      assert BareFromRows(gs[j], init);
      var k :| 0 <= k < |init| && init[k].key == gs[j].key && init[k].bare == gs[j].bare;
      assert rows[k] == init[k] && rows[|init|] == r;
    }
  }

  /**
   * When the key determines the bare value, summed quantity times bare value per group is
   * the row-by-row total, whichever row each group's bare value is read from.
   */
  lemma {:induction false} GroupedBareValue(rows: seq<Row>, pick: Pick)
    requires KeyDeterminesBare(rows)
    ensures Sum(GroupBy(rows, pick), GroupBareValue) == Sum(rows, RowBareValue)
    decreases |rows|
  {
    if rows != [] {
      var init, r := rows[..|rows| - 1], rows[|rows| - 1];
      assert rows == init + [r];
      assert KeyDeterminesBare(init);
      GroupedBareValue(init, pick);
      NextRowAgrees(init, r, pick);
      AddRowBareValue(GroupBy(init, pick), r, pick);
    }
  }

  // ---------------------------------------------------------------- the report

  /** What the report prints as totals. */
  datatype Totals = Totals(
    hours: real,          // total_horas
    cleaningValue: real,  // total_valor
    linenItems: int,      // total_itens
    linenValue: real,     // total_valor_enxoval
    supplyItems: int,     // total_suprimentos
    supplySpent: real,    // total_valor_suprimentos
    fee: real,            // 50.0 * COUNT(DISTINCT imovel_id)
    grandTotal: real)     // total_geral

  function LinenGroups(store: Store, start: Date, pick: Pick): seq<Group> {
    GroupBy(LinenRows(store.linenUses, store.properties, store.linenCatalog, start), pick)
  }

  function SupplyGroups(store: Store, start: Date, pick: Pick): seq<Group> {
    GroupBy(SupplyRows(store.restocks, store.properties, store.supplyCatalog, start), pick)
  }

  /**
   * The report's totals as the source computes them, with `linenPick` and `supplyPick`
   * SQLite's choice of bare row in the two grouped queries. The item counts are the
   * quantities of all the rows the queries keep, whatever the picks.
   */
  function Report(store: Store, start: Date, linenPick: Pick, supplyPick: Pick): (t: Totals)
    ensures t.linenItems == SumInt(LinenRows(store.linenUses, store.properties, store.linenCatalog, start), RowQuantity)
    ensures t.supplyItems == SumInt(SupplyRows(store.restocks, store.properties, store.supplyCatalog, start), RowQuantity)
    ensures t.fee >= 0.0
  {
    GroupByKeepsSums(LinenRows(store.linenUses, store.properties, store.linenCatalog, start), linenPick);
    GroupByKeepsSums(SupplyRows(store.restocks, store.properties, store.supplyCatalog, start), supplyPick);
    var cleanings := ReportCleanings(store, start);
    var linen := LinenGroups(store, start, linenPick);
    var supplies := SupplyGroups(store, start, supplyPick);
    var cleaningValue := Sum(cleanings, ValueOf);
    var linenValue := Sum(linen, GroupBareValue);
    var fee := ManagementFee(store.cleanings, start);
    Totals(Sum(cleanings, HoursOf), cleaningValue, SumInt(linen, GroupQuantity), linenValue,
           SumInt(supplies, GroupQuantity), Sum(supplies, GroupBare), fee, cleaningValue + linenValue + fee)
  }

  /** The report's three queries, their accumulator loops and its closing arithmetic. */
  method WeeklyTotals(store: Store, start: Date, linenPick: Pick, supplyPick: Pick) returns (t: Totals)
    ensures t == Report(store, start, linenPick, supplyPick)
  {
    var cleanings := ReportCleanings(store, start);
    var totalHours, totalValue := CleaningTotals(cleanings);
    var linen := LinenGroups(store, start, linenPick);
    var totalItems, totalLinenValue := LinenTotals(linen);
    var supplies := SupplyGroups(store, start, supplyPick);
    var totalSupplies, totalSpent := SupplyTotals(supplies);
    var fee := ManagementFee(store.cleanings, start);
    t := Totals(totalHours, totalValue, totalItems, totalLinenValue, totalSupplies, totalSpent, fee,
                totalValue + totalLinenValue + fee);
  }

  /** The cleaning loop: total hours and total value of the fetched cleanings. */
  method CleaningTotals(cleanings: seq<Cleaning>) returns (totalHours: real, totalValue: real)
    ensures totalHours == Sum(cleanings, HoursOf) && totalValue == Sum(cleanings, ValueOf)
  {
    totalHours, totalValue := 0.0, 0.0;
    var i := 0;
    while i < |cleanings|
      invariant i <= |cleanings|
      invariant totalHours == Sum(cleanings[..i], HoursOf)
      invariant totalValue == Sum(cleanings[..i], ValueOf)
    {
      assert cleanings[..i + 1][..i] == cleanings[..i];
      totalHours := totalHours + cleanings[i].hours;
      totalValue := totalValue + cleanings[i].value;
      i := i + 1;
    }
    assert cleanings[..i] == cleanings;
  }

  /** The linen loop: summed quantities, and each group's quantity times its bare unit price. */
  method LinenTotals(linen: seq<Group>) returns (totalItems: int, totalLinenValue: real)
    ensures totalItems == SumInt(linen, GroupQuantity) && totalLinenValue == Sum(linen, GroupBareValue)
  {
    totalItems, totalLinenValue := 0, 0.0;
    var i := 0;
    while i < |linen|
      invariant i <= |linen|
      invariant totalItems == SumInt(linen[..i], GroupQuantity)
      invariant totalLinenValue == Sum(linen[..i], GroupBareValue)
    {
      assert linen[..i + 1][..i] == linen[..i];
      totalItems := totalItems + linen[i].quantity;
      totalLinenValue := totalLinenValue + linen[i].quantity as real * linen[i].bare;
      i := i + 1;
    }
    assert linen[..i] == linen;
  }

  /** The supply loop: summed quantities and each group's bare spend. */
  method SupplyTotals(supplies: seq<Group>) returns (totalSupplies: int, totalSpent: real)
    ensures totalSupplies == SumInt(supplies, GroupQuantity) && totalSpent == Sum(supplies, GroupBare)
  {
    totalSupplies, totalSpent := 0, 0.0;
    var i := 0;
    while i < |supplies|
      invariant i <= |supplies|
      invariant totalSupplies == SumInt(supplies[..i], GroupQuantity)
      invariant totalSpent == Sum(supplies[..i], GroupBare)
    {
      assert supplies[..i + 1][..i] == supplies[..i];
      totalSupplies := totalSupplies + supplies[i].quantity;
      totalSpent := totalSpent + supplies[i].bare;
      i := i + 1;
    }
    assert supplies[..i] == supplies;
  }

  // ---------------------------------------------------------------- what the totals mean

  /** No two catalogue items with the same name have different unit prices. */
  predicate PricesByName(catalog: map<ItemId, CatalogItem>) {
    forall a, b :: a in catalog && b in catalog && catalog[a].name == catalog[b].name ==>
      catalog[a].unitPrice == catalog[b].unitPrice
  }

  /** With one price per item name, the linen rows' key determines their unit price, and a row's amount is quantity times it. */
  lemma LinenRowsPriced(store: Store, start: Date)
    requires PricesByName(store.linenCatalog)
    ensures KeyDeterminesBare(LinenRows(store.linenUses, store.properties, store.linenCatalog, start))
    ensures Sum(LinenRows(store.linenUses, store.properties, store.linenCatalog, start), RowBareValue)
         == Sum(LinenRows(store.linenUses, store.properties, store.linenCatalog, start), RowAmount)
  {
    var rows := LinenRows(store.linenUses, store.properties, store.linenCatalog, start);
    var catalog := store.linenCatalog;
    forall i, j | 0 <= i < |rows| && 0 <= j < |rows| && rows[i].key == rows[j].key
      ensures rows[i].bare == rows[j].bare
    {
      LinenRowsPricedByCatalog(store.linenUses, store.properties, catalog, start, i);
      LinenRowsPricedByCatalog(store.linenUses, store.properties, catalog, start, j);
      var a :| a in catalog && rows[i].key.name == catalog[a].name && rows[i].bare == catalog[a].unitPrice;
      var b :| b in catalog && rows[j].key.name == catalog[b].name && rows[j].bare == catalog[b].unitPrice;
    }
    forall i | 0 <= i < |rows| ensures RowBareValue(rows[i]) == RowAmount(rows[i]) {
      LinenRowsPricedByCatalog(store.linenUses, store.properties, catalog, start, i);
    }
    SumCongruent(rows, RowBareValue, RowAmount);
  }

  /**
   * When each linen item name has one price, the linen total the report prints is the sum of
   * quantity times current unit price over the uses its query keeps, whatever the pick.
   */
  lemma ReportTotalsMeaning(store: Store, start: Date, linenPick: Pick, supplyPick: Pick)
    ensures PricesByName(store.linenCatalog) ==>
      Report(store, start, linenPick, supplyPick).linenValue ==
      Sum(LinenRows(store.linenUses, store.properties, store.linenCatalog, start), RowAmount)
  {
    if PricesByName(store.linenCatalog) {
      LinenRowsPriced(store, start);
      GroupedBareValue(LinenRows(store.linenUses, store.properties, store.linenCatalog, start), linenPick);
    }
  }

  /**
   * One more cleaning row changes the cleaning totals by that row exactly when it is dated on
   * or after the window start (however late) and its property exists; the fee grows by 50
   * when the row is in the window and its property had no cleaning there yet, whether or not
   * the property exists.
   */
  lemma ReportAddCleaning(store: Store, start: Date, linenPick: Pick, supplyPick: Pick, c: Cleaning)
    ensures var before, after := Report(store, start, linenPick, supplyPick),
                                 Report(store.(cleanings := store.cleanings + [c]), start, linenPick, supplyPick);
      if InWindow(c.date, start) && c.property in store.properties then
        after.hours == before.hours + c.hours && after.cleaningValue == before.cleaningValue + c.value
      else
        after.hours == before.hours && after.cleaningValue == before.cleaningValue
    ensures var before, after := Report(store, start, linenPick, supplyPick),
                                 Report(store.(cleanings := store.cleanings + [c]), start, linenPick, supplyPick);
      after.fee == before.fee + (if InWindow(c.date, start) && c.property !in CleanedProperties(store.cleanings, start) then FeePerProperty else 0.0)
    ensures var before, after := Report(store, start, linenPick, supplyPick),
                                 Report(store.(cleanings := store.cleanings + [c]), start, linenPick, supplyPick);
      after.grandTotal == before.grandTotal +
        (if InWindow(c.date, start) && c.property in store.properties then c.value else 0.0) +
        (if InWindow(c.date, start) && c.property !in CleanedProperties(store.cleanings, start) then FeePerProperty else 0.0)
    ensures var before, after := Report(store, start, linenPick, supplyPick),
                                 Report(store.(cleanings := store.cleanings + [c]), start, linenPick, supplyPick);
      after.linenItems == before.linenItems && after.linenValue == before.linenValue &&
      after.supplyItems == before.supplyItems && after.supplySpent == before.supplySpent
  {
    var store' := store.(cleanings := store.cleanings + [c]);
    var before, after := Report(store, start, linenPick, supplyPick), Report(store', start, linenPick, supplyPick);
    var rc, rc' := ReportCleanings(store, start), ReportCleanings(store', start);
    assert before.hours == Sum(rc, HoursOf) && before.cleaningValue == Sum(rc, ValueOf);
    assert after.hours == Sum(rc', HoursOf) && after.cleaningValue == Sum(rc', ValueOf);
    ReportCleaningsAppend(store, start, c);
    if InWindow(c.date, start) && c.property in store.properties {
      SumAppend(rc, [c], HoursOf);
      SumAppend(rc, [c], ValueOf);
    }
    assert before.fee == ManagementFee(store.cleanings, start) && after.fee == ManagementFee(store'.cleanings, start);
    FeeAfterCleaning(store.cleanings, start, c);
    assert LinenGroups(store', start, linenPick) == LinenGroups(store, start, linenPick);
    assert SupplyGroups(store', start, supplyPick) == SupplyGroups(store, start, supplyPick);
  }

  /** One more cleaning joins the report's rows exactly when it is in the window and its property exists. */
  lemma ReportCleaningsAppend(store: Store, start: Date, c: Cleaning)
    ensures ReportCleanings(store.(cleanings := store.cleanings + [c]), start) ==
            if InWindow(c.date, start) && c.property in store.properties then ReportCleanings(store, start) + [c]
            else ReportCleanings(store, start)
  {
    var store' := store.(cleanings := store.cleanings + [c]);
    assert store'.cleanings[..|store'.cleanings| - 1] == store.cleanings;
  }

  /** Supply restocks never change the grand total. */
  lemma SupplyNotInGrandTotal(store: Store, start: Date, linenPick: Pick, supplyPick: Pick, restocks: seq<Restock>)
    ensures Report(store.(restocks := restocks), start, linenPick, supplyPick).grandTotal ==
            Report(store, start, linenPick, supplyPick).grandTotal
  {
  }

  // ---------------------------------------------------------------- findings and corrections

  /**
   * The report with its grouped queries selecting `SUM(quantidade * preco_unitario)` and
   * `SUM(valor_gasto)`: the linen total is quantity times current price summed over the uses
   * the query keeps, and the supply total is the spend summed over the restocks it keeps,
   * whatever the catalogue holds and whatever rows SQLite picks.
   */
  function CorrectedReport(store: Store, start: Date, linenPick: Pick, supplyPick: Pick): (t: Totals)
    ensures t.linenItems == SumInt(LinenRows(store.linenUses, store.properties, store.linenCatalog, start), RowQuantity)
    ensures t.linenValue == Sum(LinenRows(store.linenUses, store.properties, store.linenCatalog, start), RowAmount)
    ensures t.supplyItems == SumInt(SupplyRows(store.restocks, store.properties, store.supplyCatalog, start), RowQuantity)
    ensures t.supplySpent == Sum(SupplyRows(store.restocks, store.properties, store.supplyCatalog, start), RowAmount)
  {
    GroupByKeepsSums(LinenRows(store.linenUses, store.properties, store.linenCatalog, start), linenPick);
    GroupByKeepsSums(SupplyRows(store.restocks, store.properties, store.supplyCatalog, start), supplyPick);
    var cleanings := ReportCleanings(store, start);
    var linen := LinenGroups(store, start, linenPick);
    var supplies := SupplyGroups(store, start, supplyPick);
    var cleaningValue := Sum(cleanings, ValueOf);
    var linenValue := Sum(linen, GroupAmount);
    var fee := ManagementFee(store.cleanings, start);
    Totals(Sum(cleanings, HoursOf), cleaningValue, SumInt(linen, GroupQuantity), linenValue,
           SumInt(supplies, GroupQuantity), Sum(supplies, GroupAmount), fee, cleaningValue + linenValue + fee)
  }

  /**
   * The corrected report differs from the report as written only in the supply spend, and in
   * the linen total (and so the grand total) only when two items share a name but not a price.
   */
  lemma CorrectedReportSums(store: Store, start: Date, linenPick: Pick, supplyPick: Pick)
    ensures PricesByName(store.linenCatalog) ==>
      CorrectedReport(store, start, linenPick, supplyPick) ==
      Report(store, start, linenPick, supplyPick).(supplySpent := CorrectedReport(store, start, linenPick, supplyPick).supplySpent)
  {
    ReportTotalsMeaning(store, start, linenPick, supplyPick);
  }

  /** A kept use adds its quantity to the rows' summed quantity and its value to their summed amount. */
  lemma LinenRowsSumsAppend(uses: seq<LinenUse>, properties: map<PropertyId, string>,
                            catalog: map<ItemId, CatalogItem>, start: Date, u: LinenUse)
    requires InWindow(u.date, start) && u.property in properties && u.item in catalog
    ensures SumInt(LinenRows(uses + [u], properties, catalog, start), RowQuantity) ==
            SumInt(LinenRows(uses, properties, catalog, start), RowQuantity) + u.quantity
    ensures Sum(LinenRows(uses + [u], properties, catalog, start), RowAmount) ==
            Sum(LinenRows(uses, properties, catalog, start), RowAmount) + LinenLineValue(u, catalog)
  {
    var rows := LinenRows(uses, properties, catalog, start);
    var row := LinenRow(u, properties, catalog);
    LinenRowsAppend(uses, properties, catalog, start, u);
    assert (rows + [row])[..|rows|] == rows && (rows + [row])[|rows|] == row;
  }

  /** A kept restock adds its quantity to the rows' summed quantity and its spend to their summed amount. */
  lemma SupplyRowsSumsAppend(restocks: seq<Restock>, properties: map<PropertyId, string>,
                             catalog: map<ItemId, CatalogItem>, start: Date, s: Restock)
    requires InWindow(s.date, start) && s.property in properties && s.supply in catalog
    ensures SumInt(SupplyRows(restocks + [s], properties, catalog, start), RowQuantity) ==
            SumInt(SupplyRows(restocks, properties, catalog, start), RowQuantity) + s.quantity
    ensures Sum(SupplyRows(restocks + [s], properties, catalog, start), RowAmount) ==
            Sum(SupplyRows(restocks, properties, catalog, start), RowAmount) + s.spent
  {
    var rows := SupplyRows(restocks, properties, catalog, start);
    var row := SupplyRow(s, properties, catalog);
    SupplyRowsAppend(restocks, properties, catalog, start, s);
    assert (rows + [row])[..|rows|] == rows && (rows + [row])[|rows|] == row;
  }

  /**
   * Two stores with the same cleanings and properties give corrected reports with the same
   * cleaning columns and fee, and grand totals that differ by their linen totals alone.
   */
  lemma CorrectedReportCleaningColumns(a: Store, b: Store, start: Date, linenPick: Pick, supplyPick: Pick)
    requires a.cleanings == b.cleanings && a.properties == b.properties
    ensures var ra, rb := CorrectedReport(a, start, linenPick, supplyPick), CorrectedReport(b, start, linenPick, supplyPick);
      ra.hours == rb.hours && ra.cleaningValue == rb.cleaningValue && ra.fee == rb.fee &&
      ra.grandTotal - ra.linenValue == rb.grandTotal - rb.linenValue
  {
    assert ReportCleanings(a, start) == ReportCleanings(b, start);
  }

  /**
   * One more linen use changes the corrected report exactly when it is dated on or after the
   * start and its property and item exist: its quantity joins the item count, and its
   * quantity times the item's current price joins the linen and grand totals. The cleaning
   * and supply columns and the fee never move.
   */
  lemma ReportAddLinenUse(store: Store, start: Date, linenPick: Pick, supplyPick: Pick, u: LinenUse)
    ensures var before, after := CorrectedReport(store, start, linenPick, supplyPick),
                                 CorrectedReport(store.(linenUses := store.linenUses + [u]), start, linenPick, supplyPick);
      var kept := InWindow(u.date, start) && u.property in store.properties && u.item in store.linenCatalog;
      after.linenItems == before.linenItems + (if kept then u.quantity else 0) &&
      after.linenValue == before.linenValue + (if kept then LinenLineValue(u, store.linenCatalog) else 0.0) &&
      after.grandTotal == before.grandTotal + (if kept then LinenLineValue(u, store.linenCatalog) else 0.0)
    ensures var before, after := CorrectedReport(store, start, linenPick, supplyPick),
                                 CorrectedReport(store.(linenUses := store.linenUses + [u]), start, linenPick, supplyPick);
      after.hours == before.hours && after.cleaningValue == before.cleaningValue && after.fee == before.fee &&
      after.supplyItems == before.supplyItems && after.supplySpent == before.supplySpent
  {
    var store' := store.(linenUses := store.linenUses + [u]);
    CorrectedReportCleaningColumns(store', store, start, linenPick, supplyPick);
    LinenRowsAppend(store.linenUses, store.properties, store.linenCatalog, start, u);
    if InWindow(u.date, start) && u.property in store.properties && u.item in store.linenCatalog {
      LinenRowsSumsAppend(store.linenUses, store.properties, store.linenCatalog, start, u);
    }
  }

  /**
   * One more restock changes the corrected report exactly when it is dated on or after the
   * start and its property and supply exist: its quantity joins the supply count and its
   * spend the supply total. The cleaning and linen columns, the fee and the grand total
   * never move.
   */
  lemma ReportAddRestock(store: Store, start: Date, linenPick: Pick, supplyPick: Pick, s: Restock)
    ensures var before, after := CorrectedReport(store, start, linenPick, supplyPick),
                                 CorrectedReport(store.(restocks := store.restocks + [s]), start, linenPick, supplyPick);
      var kept := InWindow(s.date, start) && s.property in store.properties && s.supply in store.supplyCatalog;
      after.supplyItems == before.supplyItems + (if kept then s.quantity else 0) &&
      after.supplySpent == before.supplySpent + (if kept then s.spent else 0.0)
    ensures var before, after := CorrectedReport(store, start, linenPick, supplyPick),
                                 CorrectedReport(store.(restocks := store.restocks + [s]), start, linenPick, supplyPick);
      after.hours == before.hours && after.cleaningValue == before.cleaningValue && after.fee == before.fee &&
      after.linenItems == before.linenItems && after.linenValue == before.linenValue && after.grandTotal == before.grandTotal
  {
    var store' := store.(restocks := store.restocks + [s]);
    CorrectedReportCleaningColumns(store', store, start, linenPick, supplyPick);
    SupplyRowsAppend(store.restocks, store.properties, store.supplyCatalog, start, s);
    if InWindow(s.date, start) && s.property in store.properties && s.supply in store.supplyCatalog {
      SupplyRowsSumsAppend(store.restocks, store.properties, store.supplyCatalog, start, s);
    }
  }

  /** Two linen items named alike at 65.00 and 70.00, one unit of each used at one property. */
  function DuplicateNameStore(): Store {
    Store(map[1 := "Rua A, 10"], [],
          map[1 := CatalogItem("Lencol Casal", 65.0), 10 := CatalogItem("Lencol Casal", 70.0)],
          [LinenUse(1, 1, 5, 1), LinenUse(1, 10, 5, 1)],
          map[], [])
  }

  /** Two rows of one key make one group: summed quantity and amount, and the bare value of the picked row. */
  lemma GroupTwoOfOneKey(r1: Row, r2: Row, pick: Pick)
    requires r1.key == r2.key
    ensures GroupBy([r1, r2], pick) ==
      [Group(r1.key, 2, r1.quantity + r2.quantity, if pick(r1.key) == 1 then r2.bare else r1.bare, r1.amount + r2.amount)]
  {
    var g := NewGroup(r1);
    assert [r1][..0] == [];
    assert GroupBy([r1], pick) == AddRow([], r1, pick) == [g];
    assert FindGroup([g], r2.key) == 0;
    assert AddRow([g], r2, pick) == [Grow(g, r2, pick)];
    assert [r1, r2][..1] == [r1];
    assert GroupBy([r1, r2], pick) == AddRow(GroupBy([r1], pick), r2, pick);
  }

  lemma DuplicateNameGroups(pick: Pick)
    ensures LinenGroups(DuplicateNameStore(), 0, pick) ==
      [Group(Key("Rua A, 10", "Lencol Casal"), 2, 2, if pick(Key("Rua A, 10", "Lencol Casal")) == 1 then 70.0 else 65.0, 135.0)]
  {
    var s := DuplicateNameStore();
    var k := Key("Rua A, 10", "Lencol Casal");
    assert s.linenUses[..1] == [LinenUse(1, 1, 5, 1)];
    assert s.linenUses[..1][..0] == [];
    assert LinenRows(s.linenUses[..1], s.properties, s.linenCatalog, 0) == [Row(k, 1, 65.0, 65.0)];
    assert LinenRows(s.linenUses, s.properties, s.linenCatalog, 0) == [Row(k, 1, 65.0, 65.0), Row(k, 1, 70.0, 70.0)];
    GroupTwoOfOneKey(Row(k, 1, 65.0, 65.0), Row(k, 1, 70.0, 70.0), pick);
  }

  /**
   * As written, the report groups both uses into one row and multiplies the summed quantity
   * by the price of whichever row SQLite picks: 130.00 or 140.00, never the 135.00 the uses
   * are worth, so the grand total is wrong too.
   */
  lemma LinenTotalWithDuplicateName(linenPick: Pick, supplyPick: Pick)
    ensures Report(DuplicateNameStore(), 0, linenPick, supplyPick).linenValue ==
      if linenPick(Key("Rua A, 10", "Lencol Casal")) == 1 then 140.0 else 130.0
    ensures CorrectedReport(DuplicateNameStore(), 0, linenPick, supplyPick).linenValue == 135.0
    ensures Report(DuplicateNameStore(), 0, linenPick, supplyPick).grandTotal !=
            CorrectedReport(DuplicateNameStore(), 0, linenPick, supplyPick).grandTotal
  {
    DuplicateNameGroups(linenPick);
    var g := LinenGroups(DuplicateNameStore(), 0, linenPick);
    assert g[..0] == [];
    assert Sum(g, GroupBareValue) == if linenPick(Key("Rua A, 10", "Lencol Casal")) == 1 then 140.0 else 130.0;
    assert Sum(g, GroupAmount) == 135.0;
  }

  /** Two restocks of one supply at one property, costing 10.00 and 20.00. */
  function RepeatedRestockStore(): Store {
    Store(map[1 := "Rua A, 10"], [], map[], [],
          map[1 := CatalogItem("Sabonete", 1.5)],
          [Restock(1, 1, 5, 2, 10.0), Restock(1, 1, 6, 3, 20.0)])
  }

  /** Both restocks fall into one group holding the picked restock's spend as its bare value. */
  lemma RepeatedRestockGroups(pick: Pick)
    ensures SupplyGroups(RepeatedRestockStore(), 0, pick) ==
      [Group(Key("Rua A, 10", "Sabonete"), 2, 5, if pick(Key("Rua A, 10", "Sabonete")) == 1 then 20.0 else 10.0, 30.0)]
  {
    var s := RepeatedRestockStore();
    var k := Key("Rua A, 10", "Sabonete");
    assert s.restocks[..1] == [Restock(1, 1, 5, 2, 10.0)];
    assert s.restocks[..1][..0] == [];
    assert SupplyRows(s.restocks[..1], s.properties, s.supplyCatalog, 0) == [Row(k, 2, 10.0, 10.0)];
    assert SupplyRows(s.restocks, s.properties, s.supplyCatalog, 0) == [Row(k, 2, 10.0, 10.0), Row(k, 3, 20.0, 20.0)];
    GroupTwoOfOneKey(Row(k, 2, 10.0, 10.0), Row(k, 3, 20.0, 20.0), pick);
  }

  /** As written, the supply spend shows one restock's cost (10.00 or 20.00, as SQLite picks) instead of 30.00. */
  lemma SupplySpendWithRepeatedRestock(linenPick: Pick, supplyPick: Pick)
    ensures Report(RepeatedRestockStore(), 0, linenPick, supplyPick).supplySpent ==
      if supplyPick(Key("Rua A, 10", "Sabonete")) == 1 then 20.0 else 10.0
    ensures Report(RepeatedRestockStore(), 0, linenPick, supplyPick).supplyItems == 5
    ensures CorrectedReport(RepeatedRestockStore(), 0, linenPick, supplyPick).supplySpent == 30.0
  {
    RepeatedRestockGroups(supplyPick);
    var g := SupplyGroups(RepeatedRestockStore(), 0, supplyPick);
    assert g[..0] == [];
    assert Sum(g, GroupBare) == if supplyPick(Key("Rua A, 10", "Sabonete")) == 1 then 20.0 else 10.0;
    assert SumInt(g, GroupQuantity) == 5;
    assert Sum(g, GroupAmount) == 30.0;
  }
}
