# Synthetic sales data generator — Dafny model

This project models the mock-data generator of the Enterprise Knowledge Nexus
demo (`backend/db_setup.py`). The generator builds a four-table sales database
shaped as a star schema. Three dimension tables are filled from fixed seed lists:
8 products, 8 customers and 4 sales representatives. Then 100 sales rows are
synthesised. Each pass of the generation loop does the following:

- draws a product and keeps its price;
- draws a customer and keeps its region;
- draws a sales representative from those in the customer's region, or from
  all representatives when none is there;
- draws a quantity in 1..10;
- computes `total_amount = quantity * unit_price`;
- draws a day offset in 0..180.

The model has four modules, one per concern of the script:

- `Schema` (`schema.dfy`): the tables as sequences of stored rows. AUTOINCREMENT
  ids are the 1-based insertion position, because the database is deleted before
  every run. The file also models `executemany`, the `SELECT id, price` /
  `SELECT id, region` read-backs, and resolving a foreign key the way the
  verification join does.
- `RepFilter` (`rep_filter.dfy`): the `matching_reps` filter and the pool the
  representative is drawn from.
- `Generator` (`generator.dfy`): `random.choice` and `random.randint` as
  nondeterministic choices (`:|`), so every property holds for every outcome of
  the random source. It holds the generation loop, and the per-draw function
  `MakeEntry` as an independent reference definition of one pass.
- `SeedData` (`seed_data.dfy`): the seed lists and the whole build, from fresh
  tables to the stored sales.

`random.choice` on an empty list raises IndexError. The model returns
`Failure(EmptyChoice(table))` in that case, for the first table found empty.
With the fixed seed lists this never happens.

## Model

| member | source | states |
|---|---|---|
| Schema.InsertMany | backend/db_setup.py:89 | Inserting records gives each the next AUTOINCREMENT id: existing rows stay as they were, the new records follow in order, and the ids remain 1..n |
| Schema.CreateAndInsert | backend/db_setup.py:89-93 | A freshly created table filled by `executemany` holds exactly the given records, numbered 1, 2, ... in insertion order |
| Schema.TotalAmount | backend/db_setup.py:153 | The total is quantity times unit price as an exact real: dividing it by a non-zero price gives the quantity back, a positive quantity of a positive price costs at least one unit's price, and a zero quantity or price costs nothing |
| Schema.SelectIdPrice | backend/db_setup.py:92-93 | The products read back as (id, price) keep the table's length and order, and in a table numbered by insertion each row joins back to the stored product with that price |
| Schema.SelectRegions | backend/db_setup.py:109-123 | The customers, or the representatives, read back as (id, region) keep the table's length and order, and in a table numbered by insertion each row joins back to the stored record with that region |
| Schema.Lookup | backend/db_setup.py:185-187 | Resolving an id finds nothing exactly when no row has that id; otherwise it returns the record of a row carrying that id |
| Schema.LookupSequential | backend/db_setup.py:185-187 | In a table numbered by insertion, id k resolves to the k-th inserted record, and ids outside 1..n resolve to nothing |
| RepFilter.MatchingReps | backend/db_setup.py:142 | `matching_reps` holds exactly the representatives of the customer's region, each as often as in `rep_list`, in their original order |
| RepFilter.MatchingRepsUnique | backend/db_setup.py:142 | Any order-preserving selection of the region's representatives that keeps as many as the filter does is the filter's result |
| RepFilter.HasMatchIffMatching | backend/db_setup.py:142-143 | The `if matching_reps` branch is taken exactly when some representative is in the customer's region |
| RepFilter.SelectionPool | backend/db_setup.py:142-146 | The list a representative is drawn from holds exactly the representatives allowed: those of the customer's region when there are any, otherwise all of them; it is empty only when there are no representatives |
| Generator.Choose | backend/db_setup.py:133 | `random.choice` returns an element of the list, and fails with IndexError exactly when the list is empty |
| Generator.ChooseRep | backend/db_setup.py:142-147 | The chosen representative is in `rep_list`, and is of the customer's region whenever any representative is; the choice fails only when there are no representatives |
| Generator.MakeEntry | backend/db_setup.py:132-160 | For any in-range outcome of the draws, the appended row references fetched product, customer and representative rows, has the affinity rule, quantity in 1..10, offset in 0..180, and total equal to quantity times that product's price |
| Generator.ValidSaleDraw | backend/db_setup.py:131-160 | Every row satisfying those per-row rules is the row some outcome of the random draws produces |
| Generator.ValidSaleIffProducible | backend/db_setup.py:131-160 | A row satisfies the per-row rules if and only if some in-range outcome of the random draws produces it |
| Generator.FallbackNeverFires | backend/db_setup.py:142-147 | When every customer's region has a representative, every valid row's representative is of its customer's region |
| Generator.FirstEmpty | backend/db_setup.py:133-146 | The error names products when that list is empty, customers when only that one of the first two is empty, and representatives only when products and customers are both present, following the order of the draws |
| Generator.GenerateSales | backend/db_setup.py:130-160 | The loop emits exactly `count` rows, each obeying the per-row rules; it fails exactly when `count > 0` and one list is empty, naming the first empty list in draw order |
| SeedData.FetchedLists | backend/db_setup.py:92-123 | The three lists the loop draws from have one entry per stored dimension row, and in insertion-numbered tables every entry joins back to the stored record with the same price or region |
| SeedData.ValidSaleJoins | backend/db_setup.py:176-190 | A valid row of a database with insertion-numbered dimension tables and covered regions joins with one product, one customer and one representative of that customer's region, at the product's price |
| SeedData.SeedRegionsCovered | backend/db_setup.py:96-118 | Every region of the seed customers (East, North, South, West) has a seed representative |
| SeedData.SeedRegionRowsCovered | backend/db_setup.py:96-118 | Region lists that follow the seed customers and seed representatives position by position give every customer region a representative |
| SeedData.BuildDatabase | backend/db_setup.py:79-168 | The rebuilt database holds the 8 seed products, 8 customers and 4 representatives numbered in order and exactly 100 sales numbered 1..100; every sale joins consistently, so the fallback branch never fires |

## Left out

- SQLite side effects: deleting the file, connecting, CREATE TABLE, commit and close (backend/db_setup.py:13-20, 29-72, 168, 197). The tables are modelled as sequences, and only the AUTOINCREMENT numbering of fresh tables is kept.
- The verification query's ORDER BY / LIMIT 5 and the printed progress messages (backend/db_setup.py:173-196). These are diagnostic output. `SeedData.ValidSaleJoins` states only that every sale joins.
- Dates: `datetime.now()` and `strftime` (backend/db_setup.py:157). A row keeps the day offset `daysAgo`, and the date is today minus that many days.
- The uniform distribution of `random`. Draws are nondeterministic choices, and properties are proved for every outcome.
- Schema.TotalAmount: prices and totals are exact reals, not binary floating point, so rounding of `qty * unit_price` is not modelled. For the seed prices nothing is lost: they are whole numbers, and every product with a quantity up to 10 is far below 2^53, so the floating-point result is exact. For arbitrary prices passed to `GenerateSales` the model states the exact product.
- The ids in `SaleEntry` and in the row types are unbounded integers. SQLite's 64-bit rowid limit is never reached by 100 rows.
- `backend/server.py`, `backend/agent.py` and `frontend/app.py`: the HTTP wrapper, the LLM/tool-calling graph composed from library primitives, and the chat UI. These are foreign calls and UI code.

## Code notes

- `range(100)` and `randint(0, 180)` are hard-coded. `GenerateSales` takes the count as a parameter, `BuildDatabase` passes `SalesCount` = 100, and `WindowDays` = 180 is a constant.
- Neither the code nor the model checks that prices are positive.
