# UK railway dashboard: a verified model of its data pipeline

The dashboard is a single Streamlit script, `railway-ukapp.py`. It loads a CSV of UK railway ticket sales. It then passes the rows through a fixed pipeline, and this project models every step of that pipeline:

1. **Coordinate merge.** A table of twelve stations with latitude and longitude is left-merged into the dataset twice. The first merge keys on Departure Station and the second on Arrival Destination. Each merge runs only if its key column exists. A row whose station is null or unknown keeps its place and gets null coordinates. A present station column with rows but no name in any of them is read by pandas as a float column, and the merge then refuses it with a ValueError, which stops the script (`GeoJoin`).
2. **Sidebar filters.** There are four multiselects: Purchase Type, Ticket Class, Departure Station and Arrival Destination. An empty selection keeps every row. A non-empty one keeps the rows whose cell is one of the chosen values. The script narrows a copy of the dataset one selection at a time (`Filters`).
3. **KPI cards.** Three cards are computed from the filtered rows: total revenue, average ticket price, and the percentage of "Delayed" journeys. The percentage is guarded against an empty selection (`Kpi`).
4. **Charts.** Each chart is computed from the whole enriched dataset, not the filtered one:
   - the top-10 departure stations by revenue;
   - the top-10 arrival stations by revenue;
   - the journey-status counts behind the pie chart.

   The chart section stops at its first failure, in script order. It raises pandas' KeyError for a missing column. An empty dataset leaves a revenue series with no numeric data, and the first bar plot (line 241) raises TypeError. The box plot by Ticket Class raises ValueError when no row has a ticket class (`Rollups`, `Dashboard.Visualize`).
5. **Map.** The map draws the departure points that have coordinates. The route layers use the rows that have all four coordinates (`MapData`).

`Dashboard.Run` composes these steps in script order.

Data and numbers:

- A cell that may be missing is an `Option`. Price is an integer number of pence.
- pandas' `sum` skips nulls.
- pandas' `mean` of a column with no non-null value is NaN. The model gives `None` in that case.
- The empty-selection case therefore shows "£nan" as the average. Only the delay percentage is guarded.

The average price is NaN, not 0, when no selected row has a price (line 216). The charts and the map read the unfiltered `df`, not `filtered` (lines 237–304).

The `Scenarios` module works the pipeline through concrete datasets: three tickets, the same tickets filtered to York, an unknown station, an empty dataset, and the inputs on which the script stops with an error.

## Model

| member | source | states |
|---|---|---|
| Records.Select | railway-ukapp.py:198-204 | a boolean mask `df[mask]` never adds rows |
| Records.SelectMembers | railway-ukapp.py:196-204 | a boolean-mask selection keeps exactly the rows that satisfy the mask |
| Records.SelectCounts | railway-ukapp.py:196-204 | a mask keeps every row that satisfies it as many times as it occurs, and no other row: the selection's multiset is the input's restricted to the mask |
| Records.SelectIsSubsequence | railway-ukapp.py:196-204 | a mask only deletes rows: the result is a subsequence of the input, in the same order and with the rows unaltered |
| Records.SelectAll | railway-ukapp.py:196 | a mask that holds on every row keeps the whole dataset (the unfiltered copy) |
| Records.SelectEquiv | railway-ukapp.py:196-204 | two masks that agree on every row select the same rows |
| Records.SelectSelect | railway-ukapp.py:197-204 | masking twice equals masking once with the conjunction of the two masks |
| Records.PriceSum | railway-ukapp.py:215 | `Series.sum` skips nulls: a Price column with no non-null price sums to 0, not to NaN |
| Stations.StationTableIsKeyed | railway-ukapp.py:122-135 | no station name occurs twice in the coordinate table |
| Stations.Lookup | railway-ukapp.py:122-137 | a name has coordinates exactly when the table has a row with that name, and they are that row's coordinates |
| Stations.LookupFindsEntry | railway-ukapp.py:122-137 | in a keyed table, looking up a row's name returns that row's coordinates |
| Stations.Matches | railway-ukapp.py:141 | the table rows that a merge key matches are exactly those whose Station equals the non-null key |
| Stations.KeyedMatchIsLookup | railway-ukapp.py:141 | against a keyed table a merge key matches at most one row, and it is the one the lookup finds |
| GeoJoin.MergeRow | railway-ukapp.py:141 | a left merge never drops a row: each input row yields at least one output row |
| GeoJoin.LeftMerge | railway-ukapp.py:141 | a left merge is at least as long as its input |
| GeoJoin.KeyedMergeRow | railway-ukapp.py:141-143 | against the keyed table one row merges into exactly one row, carrying the looked-up coordinates or nulls |
| GeoJoin.KeyedLeftMergeIsLookup | railway-ukapp.py:140-147 | merging with a keyed table keeps the row count and order, and sets each row's coordinates for that side to what the lookup finds |
| GeoJoin.JoinRow | railway-ukapp.py:140-147 | a side has coordinates exactly when its column exists, the name is non-null and the table holds it; those coordinates come from the table row of that name |
| GeoJoin.Joined | railway-ukapp.py:140-147 | the enriched dataset has one row per ticket, in ticket order |
| GeoJoin.DepartureHalf | railway-ukapp.py:140-143 | the departure merge (skipped without its column) fills exactly the departure coordinates |
| GeoJoin.ArrivalHalf | railway-ukapp.py:144-147 | the arrival merge (skipped without its column) completes the enriched dataset |
| GeoJoin.Enrich | railway-ukapp.py:140-147 | the run succeeds iff no present station column is untyped (rows, but no name); otherwise ValueError on that column, departure first; on success, rebinding df through the two conditional merges yields the enriched dataset, one row per ticket |
| Filters.Filtered | railway-ukapp.py:196-204 | a row is kept iff it satisfies all four selections (each empty or holding the row's non-null cell); rows are only dropped, never reordered; with no selection the dataset is unchanged |
| Filters.FilteredCounts | railway-ukapp.py:196-204 | a row satisfying every selection is kept as many times as it occurs in the dataset; any other row, never |
| Filters.NarrowStep | railway-ukapp.py:197-198 | one conditional `isin` step turns the rows passing some selections into the rows that also pass the next one |
| Filters.StageStep | railway-ukapp.py:197-204 | the k-th step of the script turns the rows passing the first k selections into those passing k + 1 |
| Filters.StageNone | railway-ukapp.py:196 | before any selection applies, the copy is the whole dataset |
| Filters.StageAll | railway-ukapp.py:196-204 | after all four selections the copy is the reference filtered dataset |
| Filters.Narrow | railway-ukapp.py:197-204 | one script step `if sel: filtered = filtered[...isin(sel)]`, applied to the rows passing the first k selections, leaves those passing k + 1 |
| Filters.ApplyFilters | railway-ukapp.py:196-204 | the four conditional narrowing steps compute the reference filter: a subsequence of the dataset holding each row that satisfies every selection as many times as the dataset does, and no other row |
| Kpi.DelayedCount | railway-ukapp.py:217 | the delayed count never exceeds the number of rows |
| Kpi.DelayedCountIsOccurrences | railway-ukapp.py:217 | the delayed count is the number of exact "Delayed" cells in the status column |
| Kpi.Mean | railway-ukapp.py:216 | the mean is defined iff some price is non-null, and mean × count of non-null prices = their sum |
| Kpi.DelayedShare | railway-ukapp.py:219 | the percentage lies in [0, 100]; it is 0 with no trips, and otherwise pct × trips = delayed × 100 |
| Kpi.Compute | railway-ukapp.py:212-219 | revenue is the null-skipping sum, or 0 without a Price column; average is the mean or 0; delayed count is the "Delayed" occurrences, or 0 without a status column; trips is the row count; the percentage is in [0, 100] and 0 with no rows |
| Rollups.KeyColumn | railway-ukapp.py:239 | the key projection keeps the row count, and entry i is row i's key |
| Rollups.DistinctKeys | railway-ukapp.py:239 | the group keys are distinct, and are exactly the non-null keys that occur |
| Rollups.GroupsFor | railway-ukapp.py:239 | one group per key, in key order |
| Rollups.GroupsForMembers | railway-ukapp.py:239 | a group is present iff its key is a group key and its total is the sum of that key's values |
| Rollups.SumTotalsCons | railway-ukapp.py:239 | the sum of group totals splits over the first group |
| Rollups.GroupsOfNothing | railway-ukapp.py:239 | with no rows every group total is 0 |
| Rollups.GroupsSplit | railway-ukapp.py:239 | group totals add up over a split of the rows |
| Rollups.GroupsOfOne | railway-ukapp.py:239 | one row contributes its value to its own key's group only, and nothing when its key is null or not grouped |
| Rollups.GroupsPartition | railway-ukapp.py:239 | over distinct keys that cover every non-null key, the group totals add up to the sum of the keyed values |
| Rollups.GroupBySum | railway-ukapp.py:239 | `groupby(key)[value].sum()`: keys distinct; a group is present iff its key occurs non-null and its total is that key's sum; the totals add up to the sum of the keyed values, so nothing but the null-key rows is lost |
| Rollups.Insert | railway-ukapp.py:239 | inserting into a list sorted largest-first keeps it sorted, adds exactly the one group, and adds its total to the sum |
| Rollups.SortDesc | railway-ukapp.py:239 | `sort_values(ascending=False)`: the result is sorted largest first and is a permutation of the input (same multiset, same sum) |
| Rollups.ConsKeepsKeysDistinct | railway-ukapp.py:239 | adding a group with a new key keeps keys distinct |
| Rollups.InsertKeepsKeysDistinct | railway-ukapp.py:239 | inserting a group with a new key keeps keys distinct |
| Rollups.SortKeepsKeysDistinct | railway-ukapp.py:239 | sorting keeps the keys distinct |
| Rollups.Head | railway-ukapp.py:239 | `head(n)` is the prefix of length min(n, length), and the whole list when it has at most n entries |
| Rollups.RankedGroups | railway-ukapp.py:239 | the sorted groupby is sorted, keyed, contains exactly each key's total, and sums to the keyed total |
| Rollups.RevenuePairs | railway-ukapp.py:239 | the grouping keys are the station column |
| Rollups.SelectCons | railway-ukapp.py:239 | the revenue of a selection splits over its first row |
| Rollups.GroupSumIsStationRevenue | railway-ukapp.py:239 | a station's group sum is the price sum of the rows at that station |
| Rollups.KeyedRevenue | railway-ukapp.py:239 | the rows with a station carry all revenue except that of the rows with a null station |
| Rollups.RevenueSplitsByStation | railway-ukapp.py:239 | total revenue = sum of the per-station revenues + revenue of rows with no station |
| Rollups.RankedStations | railway-ukapp.py:239 | `groupby(station)["Price"].sum().sort_values(ascending=False)`: sorted largest first, keys distinct, and a group is present iff its station occurs non-null and its total is the revenue of the rows at that station |
| Rollups.HeadOfRanked | railway-ukapp.py:239 | the top n of a sorted keyed list stay sorted and keyed, and whatever is left out is no larger than the last entry shown |
| Rollups.TopStations | railway-ukapp.py:239 | at most 10 stations, largest revenue first, each once, each with the revenue of its rows; a station left out implies 10 are shown and it earned no more than the tenth (the same function draws line 281 for arrivals) |
| Rollups.StatusPairs | railway-ukapp.py:271 | the grouping keys are the status column |
| Rollups.StatusTotalIsOccurrences | railway-ukapp.py:271 | a status's group total is its number of occurrences |
| Rollups.KeyedStatusCount | railway-ukapp.py:271 | the non-null statuses number the rows minus the null cells |
| Rollups.StatusCounts | railway-ukapp.py:271 | `value_counts()` is sorted by count and keyed; each count is positive and is the status's occurrences; every non-null status appears; the counts add up to the non-null cells |
| MapData.MapPoints | railway-ukapp.py:298-299 | `dropna` on the departure coordinates: exactly one point per row that has them, in row order, point i being the i-th such row's coordinates |
| MapData.MapPointsOfJoined | railway-ukapp.py:298 | on the enriched dataset the points are, in ticket order, the table coordinates of exactly the tickets whose departure station the table knows |
| MapData.DepartureMaskOfJoined | railway-ukapp.py:298 | the enriched rows with departure coordinates are the enriched tickets whose departure station the table knows, in order |
| MapData.RouteData | railway-ukapp.py:304 | the route rows are a subsequence of the dataset holding each row with both coordinate pairs as many times as it occurs, and no other row |
| MapData.RouteMaskOfJoined | railway-ukapp.py:304 | selecting routes on the enriched dataset equals enriching the tickets whose two stations the table knows |
| MapData.RoutesOfJoined | railway-ukapp.py:304 | the route rows are the enriched tickets with two known stations, in ticket order |
| Dashboard.Visualize | railway-ukapp.py:235-304 | the charts succeed iff all five columns exist, the dataset has rows and some row has a ticket class; otherwise the first failure in script order: KeyError on Price or Departure Station, TypeError for an empty dataset (line 241), KeyError or ValueError (no class group) on Ticket Class, KeyError on Journey Status or Arrival Destination; on success the chart data is the top-10 departure stations, the status counts, the top-10 arrival stations, the map points and the route rows of the dataset (each specified by its own row); both top lists hold at most 10 and are sorted, the status counts add up to the non-null cells, map points ≤ rows, routes are a subsequence |
| Dashboard.Run | railway-ukapp.py:140-304 | the run stops with ValueError iff a merge is refused; otherwise df is the enriched dataset, filtered is the reference filter of df (a subsequence holding each satisfying row as often as df does, and no other), the KPIs are computed on filtered and the charts on df |
| Scenarios.KnownStations | railway-ukapp.py:123-130 | London Euston and York have their table coordinates |
| Scenarios.ThreeTicketsJoined | railway-ukapp.py:140-143 | three tickets from known stations are enriched with their departure coordinates |
| Scenarios.ThreeTicketKpis | railway-ukapp.py:212-219 | no selection: revenue 100, mean 100/3, delay share 200/3 % |
| Scenarios.ThreeTicketPairs | railway-ukapp.py:239 | the (station, price) pairs of the three rows |
| Scenarios.ThreeTicketGroups | railway-ukapp.py:239 | York groups to 30 and London Euston to 70 |
| Scenarios.ThreeTicketSort | railway-ukapp.py:239 | sorting puts 70 before 30 |
| Scenarios.ThreeTicketRanking | railway-ukapp.py:239 | the ranked departure revenue is London Euston 70, York 30 |
| Scenarios.ThreeTicketRollup | railway-ukapp.py:239 | the departure chart shows London Euston 70 then York 30 |
| Scenarios.YorkOnly | railway-ukapp.py:201-202 | selecting departure York keeps one trip: revenue 30, 100 % delayed |
| Scenarios.UnknownStationKept | railway-ukapp.py:141 | a station the table lacks keeps its row with null coordinates |
| Scenarios.EmptyDataset | railway-ukapp.py:212-219 | no rows: revenue 0, mean NaN, delay share 0, and the rollup functions return no groups (the script itself never draws them: its chart section stops first, see Scenarios.EmptyDatasetCharts) |
| Scenarios.EmptyDatasetCharts | railway-ukapp.py:237-241 | with every column present, an empty dataset stops the charts with TypeError at the first bar plot |
| Scenarios.NoArrivalJoined | railway-ukapp.py:140-147 | loaded with every column but Arrival Destination, the three tickets pass the merge stage and enrich to the three-ticket rows |
| Scenarios.NoClassGroup | railway-ukapp.py:253 | with every column but Arrival Destination, the three-ticket rows (which have no ticket class) stop the charts with ValueError at the box plot |
| Scenarios.NamelessDepartures | railway-ukapp.py:140-145 | a departure column with rows but no names is refused by the merge; a header-only file and the three tickets without an arrival column are not; with an Arrival Destination column holding no names the three tickets are refused by the arrival merge |

## Left out

- Page layout, CSS, the sidebar title and links, the header cards and the project description are presentation only.
- The map style selector and the Show Points / Show Routes checkboxes (lines 158-160) are not modelled. The script reads them but never uses them: both layers are always drawn (line 324), and the style is never passed to the map.
- `read_csv` and its error path (`st.error` then `st.stop`) are not modelled. The model starts from the parsed rows and a flag per known column. Columns other than the six the pipeline reads are not represented.
- A CSV that already has its own Station, Latitude or Longitude columns is not modelled. pandas would rename such clashes during the merge.
- The PDF report download is file I/O and is not modelled.
- Rendering is not modelled: matplotlib bar, box and pie plots, `st.map`, and the pydeck scatter and line layers. For the plots only the failures listed under Charts above are modelled. The box plot's quartiles are not.
- Values computed only for commented-out labels are not modelled: the second total revenue, the record count, the distinct-status count and the top-arrival total. The KeyError raised by the first of these, at line 237, is modelled.
- Number formatting on the KPI cards is not modelled.
- Prices are exact integers (pence), and the mean and percentage are exact reals. Float rounding is not modelled.
- A null value chosen in a multiselect is not modelled. The model's selections hold strings only, and a null cell never passes `isin`.
- Rollups.SortDesc, Rollups.TopStations, Rollups.StatusCounts: the order among equal totals is left unspecified. The model breaks ties one fixed way, and every contract holds whatever the tie order. pandas' own order for ties, and the key order of `groupby`, is not modelled.
- GeoJoin.LeftMerge: for a table whose names repeat, the contract states only that no row is lost. The station table has no repeats (Stations.StationTableIsKeyed), and for it the exact result is Stations.KeyedMatchIsLookup and GeoJoin.KeyedLeftMergeIsLookup.
- The dtype pandas infers for each CSV column is modelled only as far as it decides a failure: an all-null station column with rows is a float column, and every column of a header-only file is untyped. Station names that parse as numbers are not represented, since cells hold strings.
- Streamlit reruns the script on every widget change. The model is one run for one set of selections.
