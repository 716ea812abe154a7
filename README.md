# Cleaning-service billing, modelled in Dafny

The system is a desktop tool for a cleaning service that works on rented properties
(`main.py`: Tkinter over SQLite). Staff record cleanings (start and end times, hourly
rate), linen used and supplies restocked for each property. The tool shows a dashboard
of the last week and writes a weekly report. This project models the arithmetic behind
those screens and proves what it computes:

- `calcular_horas`: the length of a session from two "HH:MM" times, in hours rounded to
  two decimals, wrapping past midnight. An invalid time gives 0. Module `Clock`; the result
  is kept in whole hundredths of an hour.
- `formatar_moeda`: "R$ 12,34" text. Module `Money`; the amount is given in integer cents,
  and a parser is the partner of the formatter.
- The combobox options `"{id} - {name}"` and the handlers' `split(" - ")[0]`. Module
  `ComboOption`, on top of `Decimal` (`str` of an integer and reading it back).
- `calcular_limpeza` / `adicionar_limpeza`: the required-field check, hours times rate,
  and the row that is inserted. Module `CleaningEntry`.
- The tables as query results, the date window, the management fee and the linen line
  value of `carregar_itens_enxoval`. Module `Ledger`.
- `gerar_relatorio_semanal`: three queries (two of them grouped), three `+=` loops, the fee
  and the grand total. Module `WeeklyReport`. The loops are methods proved equal to the
  function `Report`, whose meaning is proved by lemmas.
- `atualizar_dashboard`: the four cards. Module `Dashboard`. When every in-window cleaning
  and priced linen use refers to an existing property, its total is proved equal to the
  grand total of the corrected weekly report over the same window, and also equals the
  report as written when each linen name has one price.

Modelling choices:

- Money, hours and rates in the ledger are exact `real`s.
- Dates are day numbers. The tables hold ISO dates, which `date()` orders the same way.
- The window start is a parameter.
- Where a grouped query reads a bare column, the row SQLite reads it from is a parameter
  (`WeeklyReport.Pick`), so every statement about the report holds for every such choice.
- Python's `float()` of the typed rate is the parameter `parseFloat` (None where it
  raises `ValueError`).

## Model

| member | source | states |
|---|---|---|
| Decimal.NatToString | main.py:846 | `str(n)` of a non-negative id is non-empty ASCII digits with no leading zero |
| Decimal.ParseNat | main.py:1034 | plain digit text is accepted exactly when it is non-empty and all digits |
| Decimal.DigitsValueOfNatToString | main.py:846 | the digits `str(n)` writes have the value n |
| Decimal.IntToString | main.py:989 | `str(i)` of any integer is non-empty and made of digits and '-' |
| Decimal.ParseNatOfNatToString | main.py:846 | reading back `str(n)` gives n |
| Decimal.ParseIntOfIntToString | main.py:989 | reading back `str(i)` gives i, negatives included |
| Decimal.IntToStringInjective | main.py:989 | different ids give different option prefixes |
| Decimal.Pad2 | main.py:201 | two-digit zero-padded text of n < 100 is two digits whose value is n |
| Clock.ParseField | main.py:181-182 | a `%H`/`%M` field that is accepted is at most its bound (23 or 59) |
| Clock.ParseClock | main.py:181-182 | a time that strptime accepts is a minute of the day, below 1440 |
| Clock.FormatThenParseClock | main.py:181-182 | every time of day written "HH:MM" is read back as itself |
| Clock.TwoDigitClockAccepted | main.py:181-182 | two-digit "HH:MM" is accepted exactly when HH ≤ 23 and MM ≤ 59, with value HH·60+MM |
| Clock.ParseClockExactly | main.py:181-182 | a text is read as m minutes exactly when it is a one- or two-digit hour ≤ 23, ':', and a one- or two-digit minute ≤ 59, with m = hour·60 + minute |
| Clock.OneDigitFields | main.py:181 | single-digit fields are accepted: "7:5" is 07:05 |
| Clock.MalformedClockRefused | main.py:180-182 | "", "12" and "12h30" are refused |
| Clock.MinutesForward | main.py:183-184 | the gap is below one day and start + gap ≡ end (mod 1440), as `timedelta.seconds` wraps |
| Clock.ForwardWraps | main.py:183-184 | an end earlier than the start gives end + 1440 − start minutes |
| Clock.RoundedHundredths | main.py:184-185 | `round(d/60, 2)` in hundredths is within half a hundredth of d/60 hours |
| Clock.NearestHundredthUnique | main.py:185 | that nearest hundredth is unique, so there is never a rounding tie |
| Clock.HoursBetween | main.py:178-187 | the result is at most 23.98 hours |
| Clock.HoursBetweenValid | main.py:180-185 | for valid times the result is ((end − start) mod 1440) minutes, rounded to the nearest hundredth of an hour |
| Clock.HoursWrapPastMidnight | main.py:183-185 | an end earlier than the start wraps past midnight instead of going negative |
| Clock.HoursOfInvalidTime | main.py:186-187 | either time invalid gives 0, without an error |
| Clock.ForwardZeroIff | main.py:183-185 | a forward gap rounds to 0 exactly when the two times are equal |
| Clock.HoursZeroIff | main.py:180-187 | the result is 0 exactly when a time is invalid or both are the same time of day |
| Clock.HoursOfSameTime | main.py:183-185 | equal start and end give 0 |
| Clock.LongestSession | main.py:183-185 | 00:01 to 00:00 gives the largest result, 23.98 hours |
| Clock.ThreeAndAHalfHours | main.py:178-185 | 09:00 to 12:30 gives 3.50 hours |
| Money.DigitsHaveNoDot | main.py:201 | digit text holds no '.' |
| Money.NoDotConcat | main.py:201 | joining two texts without '.' gives a text without '.' |
| Money.Magnitude | main.py:201 | the unsigned part ends in ',' and two digits and starts with a digit |
| Money.SignedAmount | main.py:201 | the signed part starts with '-' exactly for negative amounts and ends in ',' and two digits |
| Money.FormatBRL | main.py:199-201 | the text starts with "R$ " and ends with ',' and exactly two digits |
| Money.MagnitudeHasNoDot | main.py:201 | the unsigned part holds no '.' |
| Money.SignedAmountHasNoDot | main.py:201 | the signed part holds no '.' |
| Money.FormatBRLHasNoDot | main.py:201 | every '.' has become ',': the formatted text holds no '.' |
| Money.ParseMagnitudeOf | main.py:201 | the unsigned part reads back as the cents it was written from |
| Money.ParseNegated | main.py:201 | a '-' before an unsigned part negates its value |
| Money.ParseSignedOf | main.py:201 | the signed part reads back as the cents it was written from |
| Money.ParseFormatBRL | main.py:199-201 | reading the formatted text back gives the same number of cents |
| Money.FormatBRLInjective | main.py:199-201 | different amounts never print alike |
| Money.FormatExample | main.py:201 | 105 reais print as "R$ 105,00" |
| ComboOption.Encode | main.py:989 | the option `f"{id} - {name}"` starts with `str(id)`, is three characters longer than id text and name together, and decodes to `str(id)` whatever the name holds |
| ComboOption.Decode | main.py:1034 | `split(" - ")[0]` is a prefix of the option with no " - " starting inside it, followed by " - " unless it is the whole option |
| ComboOption.OccursAtTail | main.py:1034 | past the first character, " - " occurs where it occurs one place earlier in the tail |
| ComboOption.SplitHead | main.py:1034 | `split(sep)[0]` is a prefix of the text, with no separator starting inside it, and is followed by the separator unless it is the whole text |
| ComboOption.SplitHeadBeforeSeparator | main.py:1034 | text without spaces followed by " - " splits off exactly that text |
| ComboOption.DecodedIdentifiesOption | main.py:1034 | the decoded text is non-empty and reads back as the option's id |
| ComboOption.DecodeEmpty | main.py:1034 | an empty combobox decodes to empty text |
| CleaningEntry.Charge | main.py:1044 | hours × rate is 0 exactly when the hours or the rate are 0, and never negative for non-negative ones |
| CleaningEntry.Hours | main.py:1043 | the session length used for a cleaning lies between 0 and 23.98 hours |
| CleaningEntry.Preview | main.py:1017-1030 | the preview fails exactly when the rate is not a number; otherwise it shows `calcular_horas` and hours × rate |
| CleaningEntry.Submit | main.py:1032-1062 | refused with nothing written exactly when the id, start, end or rate is empty; a rate error exactly when the fields are filled but the rate is not a number; otherwise the row holds the id text `split(" - ")[0]` of the option, the typed start and end, `calcular_horas`, the parsed rate, value = hours × rate, and the form's date and notes |
| CleaningEntry.SubmitFromOption | main.py:1034-1052 | from an option "id - name", valid times and a numeric rate, the row records `str(id)`, the rounded forward gap as hours and the parsed rate |
| CleaningEntry.InvalidTimeSavedAsZero | main.py:1041-1052 | a filled-in but invalid time is not refused: the row is saved with 0 hours and value 0 |
| CleaningEntry.PreviewMatchesRecord | main.py:1017-1052 | when a row is saved, the preview of the same fields shows its hours and value |
| Ledger.Filter | main.py:224 | a `WHERE` keeps each row exactly as many times as it occurs when the row satisfies it, and never otherwise; every kept row satisfies it |
| Ledger.FilterCongruent | main.py:224 | two conditions that agree on every row select the same rows |
| Ledger.ManagementFee | main.py:320 | the fee is never negative |
| Ledger.CleanedPropertiesMembers | main.py:320 | a property is counted by `COUNT(DISTINCT imovel_id)` exactly when some cleaning of the window is at it |
| Ledger.CleanedPropertiesAtMostCleanings | main.py:320 | there are no more distinct cleaned properties than in-window cleanings |
| Ledger.ManagementFeeBounds | main.py:324 | the fee is 0 exactly when no cleaning is in the window, and at most 50 per cleaning |
| Ledger.FeeAfterCleaning | main.py:324 | one more cleaning adds 50 exactly when it is in the window and its property had no cleaning there yet |
| Ledger.LinenLineValue | main.py:1168-1169 | a use is worth 0 exactly when its quantity or its item's price is 0, and never less for non-negative ones |
| Ledger.RepricingChangesPastLines | main.py:1168-1169 | the line value uses the catalogue's current price, so repricing changes past lines |
| Ledger.LinenListing | main.py:1167-1173 | the list has one line per use whose property and item exist: its address, the item's name, quantity, date, the item's current price and its line value |
| Ledger.ListingAtCurrentPrice | main.py:1167-1169 | each line shows the use's quantity, the catalogue's price as it is now, and the use's value at that price |
| WeeklyReport.ReportCleanings | main.py:220-226 | the cleaning query returns each cleaning as often as it was recorded when it is dated on or after the start and its property exists, and never otherwise |
| WeeklyReport.ReportCleaningsAppend | main.py:220-226 | one more cleaning joins the fetched rows exactly when it is in the window and its property exists |
| WeeklyReport.LinenRows | main.py:253-260 | the joined linen rows are, in order, the uses dated on or after the start whose property and item exist, each with its address, item name, quantity, current price and quantity × price |
| WeeklyReport.SupplyRows | main.py:288-295 | the joined supply rows are, in order, the restocks dated on or after the start whose property and supply exist, each with its address, supply name, quantity and own spend |
| WeeklyReport.LinenRowsAppend | main.py:253-260 | one more use adds its row at the end exactly when it is in the window and its property and item exist |
| WeeklyReport.SupplyRowsAppend | main.py:288-295 | one more restock adds its row at the end exactly when it is in the window and its property and supply exist |
| WeeklyReport.LinenRowValue | main.py:254 | a joined linen row's amount is its quantity × its bare unit price |
| WeeklyReport.LinenRowsPricedByCatalog | main.py:253-260 | each joined linen row is worth quantity × the unit price of some catalogue item with its name |
| WeeklyReport.FindGroup | main.py:259 | a group with the row's key is found, or no group has that key |
| WeeklyReport.AddRow | main.py:259 | adding a row to the groups adds at most one group and leaves them non-empty |
| WeeklyReport.AddRowShape | main.py:259 | adding a row keeps every group's key, changes only the group of its key, whose bare value stays or becomes the row's, and appends a group only for a new key |
| WeeklyReport.GroupBy | main.py:259 | there are no more groups than rows, and none exactly when there are no rows |
| WeeklyReport.AddRowSums | main.py:254 | adding a row adds its quantity and amount to the column totals |
| WeeklyReport.AddRowDistinct | main.py:259 | adding a row keeps the group keys distinct |
| WeeklyReport.GroupByKeepsSums | main.py:254-259 | grouping keeps the total of `SUM(quantidade)` and of the row amounts |
| WeeklyReport.GroupByKeys | main.py:259 | grouping makes exactly one group per (address, name) that occurs |
| WeeklyReport.GroupByBare | main.py:254 | whatever row SQLite picks, each group's bare column is the value of some row of that group |
| WeeklyReport.OfKeyAppend | main.py:259 | one more row joins the rows of its own key and of no other key |
| WeeklyReport.OfKeyAbsent | main.py:259 | a key no row carries has no rows |
| WeeklyReport.NewGroupAggregates | main.py:254-259 | a group started by the first row of its key holds that row's count, quantity and amount |
| WeeklyReport.GrowAggregates | main.py:254-259 | growing a key's group by one more row of that key keeps it the aggregate of that key's rows |
| WeeklyReport.GroupByAggregates | main.py:254-259 | whatever row SQLite picks, each group's count, `SUM(quantidade)` and amount are taken over exactly the rows of its (address, name) key |
| WeeklyReport.GrowGroupBareValue | main.py:281 | growing a group by a row with the same price adds that row's quantity × price |
| WeeklyReport.NewGroupBareValue | main.py:281 | a group made from one row is worth that row's quantity × price |
| WeeklyReport.AddRowBareValueNew | main.py:281 | a row with a new key adds its own quantity × price |
| WeeklyReport.AddRowBareValue | main.py:281 | a row agreeing with its group's price adds its own quantity × price |
| WeeklyReport.NextRowAgrees | main.py:254-259 | when the key determines the price, a further row agrees with its group's bare price |
| WeeklyReport.GroupedBareValue | main.py:254-281 | when the key determines the price, Σ group SUM(q) × bare price equals Σ row q × price, whatever rows SQLite picks |
| WeeklyReport.Report | main.py:236-324 | the report's item counts are the quantities of all rows its joins keep, and its fee is never negative |
| WeeklyReport.WeeklyTotals | main.py:203-325 | the report's queries, loops, fee and grand total compute exactly `Report` |
| WeeklyReport.CleaningTotals | main.py:236-246 | the cleaning loop's totals are the sums of hours and values over the fetched rows |
| WeeklyReport.LinenTotals | main.py:271-281 | the linen loop's totals are Σ SUM(q) and Σ SUM(q) × bare price over the groups |
| WeeklyReport.SupplyTotals | main.py:306-316 | the supply loop's totals are Σ SUM(q) and Σ bare spend over the groups |
| WeeklyReport.LinenRowsPriced | main.py:253-260 | with one price per linen name, the key determines the price and q × price is each row's amount |
| WeeklyReport.ReportTotalsMeaning | main.py:254-281 | with one price per linen name, the report's linen total is Σ quantity × current price over the joined uses, whatever rows SQLite picks |
| WeeklyReport.ReportAddCleaning | main.py:220-246 | a new cleaning row changes hours and value by that row exactly when it is dated on or after the start (however late) and its property exists; the fee grows by 50 for a new property in the window; the grand total grows by both, and the linen and supply columns do not move |
| WeeklyReport.SupplyNotInGrandTotal | main.py:324 | restocks never change the grand total |
| WeeklyReport.CorrectedReport | main.py:254-294 | with `SUM(q × price)` and `SUM(valor_gasto)`, the item counts, linen total and supply spend are the sums over all rows the joins keep |
| WeeklyReport.CorrectedReportSums | main.py:254-294 | when each linen name has one price, the corrected report equals the report as written in every column but the supply spend, whatever rows SQLite picks |
| WeeklyReport.LinenRowsSumsAppend | main.py:254-260 | a kept use adds its quantity to the linen count and quantity × current price to the linen sum |
| WeeklyReport.SupplyRowsSumsAppend | main.py:289-295 | a kept restock adds its quantity to the supply count and its spend to the supply sum |
| WeeklyReport.CorrectedReportCleaningColumns | main.py:220-324 | two stores with the same cleanings and properties give the same hours, cleaning value, fee and non-linen part of the grand total |
| WeeklyReport.ReportAddLinenUse | main.py:254-324 | one more use changes the corrected report exactly when it is dated on or after the start and its property and item exist: the linen count grows by its quantity, the linen and grand totals by quantity × current price, and no other column moves |
| WeeklyReport.ReportAddRestock | main.py:289-316 | one more restock changes the corrected report exactly when it is dated on or after the start and its property and supply exist: the supply count grows by its quantity and the spend by its cost, and no other column moves |
| WeeklyReport.GroupTwoOfOneKey | main.py:259 | two rows of one key make one group with summed quantity and amount, whose bare value is the second row's if SQLite picks it and the first row's otherwise |
| WeeklyReport.DuplicateNameGroups | main.py:254-260 | two uses of same-named items at 65.00 and 70.00 form one group whose bare price is 65.00 or 70.00 |
| WeeklyReport.LinenTotalWithDuplicateName | main.py:254-281 | that group's report total is 130.00 or 140.00, depending on the row SQLite picks, never the 135.00 the uses are worth |
| WeeklyReport.RepeatedRestockGroups | main.py:289-295 | two restocks of one supply at one property form one group whose bare spend is 10.00 or 20.00 |
| WeeklyReport.SupplySpendWithRepeatedRestock | main.py:289-316 | restocks costing 10.00 and 20.00 are reported as 10.00 or 20.00 spent (5 items), depending on the row SQLite picks, never the 30.00 of `SUM` |
| Dashboard.SqlSum | main.py:541-546 | `SUM` is NULL exactly over no rows, and `or 0` turns it into the plain sum |
| Dashboard.PricedUses | main.py:549-553 | the linen card's join keeps each use as often as it was recorded when it is in the window and its item exists, whatever its property, and never otherwise |
| Dashboard.LinenValueSince | main.py:549-553 | the linen sum is Σ quantity × current price over those uses, 0 over none |
| Dashboard.CleaningCard | main.py:540-545 | the cleaning card's COUNT is the number of the window's cleanings; its SUM is NULL exactly when that is 0, and reads as the sum of the window's cleaning values |
| Dashboard.LinenCard | main.py:548-556 | the linen card's COUNT is the number of uses its join keeps; its SUM is NULL exactly when that is 0, and reads as Σ quantity × current price over the kept uses |
| Dashboard.SupplyCard | main.py:558-565 | the supply card's COUNT is the number of the window's restocks; its SUM is NULL exactly when that is 0, and reads as the window's spend |
| Dashboard.DashboardTotal | main.py:567-568 | total = Σ cleaning values + Σ quantity × current price + 50 × distinct cleaned properties, NULL sums read as 0 |
| Dashboard.DashboardIgnoresSupplies | main.py:559-568 | restocks never change the total |
| Dashboard.LinenRowsWorth | main.py:550-553 | when priced uses have existing properties, the report's linen rows are worth the dashboard's linen sum |
| Dashboard.DashboardAgreesWithReport | main.py:534-569 | when no in-window row refers to a missing property, the dashboard total is the corrected report's grand total, and the written report's when each linen name has one price, whatever rows SQLite picks |

## Left out

- The Tkinter interface is not modelled: screens, forms, tree views, message boxes, charts and the hard-coded chart data.
- SQLite itself is not modelled: connections, schema creation and seed rows. Query results are functions over the `Store` value.
- `ORDER BY` is not modelled. In the weekly report it changes only the order in which the loops add rows.
- Ledger.LinenListing: the lines are in table order. The list's `ORDER BY c.data DESC` shows the newest date first, and that order is not modelled.
- python-docx is not modelled. The report document, its tables and text, the file name and `abrir_relatorio_word` are rendering and file-system work.
- `selecionar_arquivo` is not modelled: a file dialog and a file move.
- The window start is a parameter. The report uses `datetime.now() - timedelta(days=7)` as local date text. The dashboard uses SQLite's `date('now', '-7 days')`, which is in UTC. The clock is outside the model.
- `date()` of malformed date text, which SQL reads as NULL, is not modelled: dates are well-formed day numbers.
- Python floats and SQLite `REAL` are exact `real`s, and hours are exact hundredths. Binary rounding error is not reproduced.
- Money.FormatBRL: takes an amount already in whole cents. The `.2f` rounding of a float to cents is not modelled, and neither is "-0,00" for tiny negative amounts.
- Clock.ParseClock: accepts ASCII digits only. Python's strptime also accepts other Unicode decimal digits.
- CleaningEntry.Submit: the notes are stored as given. The `.strip()` of the notes box is not modelled.
- CleaningEntry.Submit: the property id is stored as the decoded text. SQLite's integer affinity, which turns "3" into 3, is not modelled.
- `float()` of the typed rate is the oracle `parseFloat`. Which texts it accepts ("nan", "1e3", " 30 ") is Python's business.
- The date picker's `get_date()` returns a date object, which is always truthy. So the date never fails the required-field check, and the model has no "missing date" case.
- `adicionar_consumo_enxoval` and `adicionar_reposicao_suprimento` are not modelled beyond the `split(" - ")[0]` decode they share. Their `int()`/`float()` parsing and inserts do nothing the cleaning handler's model does not already show.
- The catalogue sync in `salvar_item_config` (`INSERT OR IGNORE` with no unique constraint) is not modelled. Its effect depends on database state. It is also how two linen items can come to share a name (first finding).
- For a bare column under `GROUP BY`, SQLite may read any row of the group. The model takes the choice as a parameter: `Pick` gives, per group, the position of the row read, and a group with fewer rows falls back to its first row. Any choice SQLite makes, one row per group, is some `Pick`.
- The two identical `COUNT(DISTINCT imovel_id)` queries of the report read the same tables, so they are modelled as one fee.
- No operation closes or commits a billing period, scopes it to an owner or gives the window an end. None exists in `main.py`, so none is modelled.

## Findings

| source | as written | input that shows it | evidently intended | confidence | as-written member | corrected member |
|---|---|---|---|---|---|---|
| main.py:254-281 | linen total = Σ over (address, name) groups of `SUM(quantidade)` × one row's bare `preco_unitario` | two `tipos_enxoval` rows named "Lencol Casal" at 65.00 and 70.00, one unit of each at one property: the report shows 130.00 or 140.00, depending on the row SQLite reads the price from | Σ quantity × unit price = 135.00, as the dashboard computes it | not executed | WeeklyReport.LinenTotalWithDuplicateName | WeeklyReport.CorrectedReportSums |
| main.py:289-316 | supply spend = Σ over (address, name) groups of one row's bare `valor_gasto` | two restocks of one supply at one property costing 10.00 and 20.00: "Total gasto" shows 10.00 or 20.00, depending on the row SQLite reads the spend from | `SUM(valor_gasto)` = 30.00, as the dashboard's supply card computes it | not executed | WeeklyReport.SupplySpendWithRepeatedRestock | WeeklyReport.CorrectedReportSums |
