# Restorify data layer, in Dafny

Restorify is a small restaurant back office: a Streamlit front end over a
PostgreSQL database of eight tables (`karyawan` employees, `pelanggan`
customers, `supplier`, `bahan_baku` ingredients, `menu`, `transaksi` sales,
`feedback`, `absensi` attendance). This project models what its data-access
functions in `app.py` do to those tables and what its four report queries
return, and proves the properties the code relies on.

- `values.dfy` (`Values`): optional arguments, dates, the values bound to `%s`
  placeholders, and the two argument tests the update functions use
  (`if arg:` and `if arg is not None:`), with Python truthiness spelled out.
- `partial_update.dfy` (`PartialUpdate`): the `perbarui_*` pattern once, over a
  list of candidate arguments `(column, argument, test)`. The loop method
  `BuildUpdate` grows the `fields` and `params` lists; `ExecuteUpdate` binds
  the parameters positionally, the last one to `WHERE id = %s`, and reports
  `rowcount`.
- `entities.dfy` (`Entities`): one row type per table, a column being `Option`
  exactly where the schema allows NULL. For each `perbarui_*`, its argument list
  in the order the code tests it, the meaning of one `col = %s` clause, and
  `PatchX`, the row a partial update is meant to produce (each column
  overwritten exactly when its argument passes its test).
- `tables.dfy` (`Tables`): one table as a map from primary key to row; the
  outcomes of `tambah_*` (insert), `perbarui_*` (update) and `hapus_*` (delete)
  as the user sees them (`Ok`, `Duplicate`, `NothingToUpdate`, `NotFound`,
  `Failed`); the `executemany` batch insert and the seed-if-empty step.
- `seed.dfy` (`Seed`): the five seed rows of every table, and
  `insert_initial_data` as one transaction over the eight seed-if-empty steps.
- `database.dfy` (`Restaurant`): class `Database`, whose eight map fields are
  the tables. Each `TambahX`/`PerbaruiX`/`HapusX` method changes only its own
  table, and `InsertInitialData` commits all eight seeding steps or none.
- `grouping.dfy` (`Grouping`) and `sorting.dfy` (`Sorting`): `GROUP BY key ORDER
  BY key` as a fold into key-ordered groups, and `ORDER BY` on a non-unique
  column as an insertion sort under a total preorder.
- `ordering.dfy` (`Ordering`): text in code-point order and dates in calendar order,
  proved to be strict total orders.
- `reports.dfy` (`Reports`): `total_transaksi_per_hari`,
  `stok_bahan_baku_laporan`, `feedback_per_karyawan` and
  `absensi_per_karyawan` as functions from table rows to result rows. Each
  report has a reference definition that counts or sums the raw rows
  independently, and a lemma ties every output row to it.
- `seed_reports.dfy` (`SeedReports`): the four reports evaluated on the rows
  that `insert_initial_data` puts into an empty database, i.e. what the report
  pages show on a fresh installation.

In app.py the
update functions test only `fingerprint_id`, `stock`, `harga_bahan`, `harga`,
`total_transaksi` and `rating` with `is not None`. All other arguments are
tested by truthiness, including the nullable `supplier_id`, `pelanggan_id`,
`karyawan_id` and `komentar` (app.py:676, 894-899, 1006-1011, 1018, 1124). So in the
code a nullable column other than `fingerprint_id` can never be cleared by an
update.

## Model

| member | source | states |
|---|---|---|
| Values.TruthyText | app.py:334-339 | `if arg:` on a text argument admits exactly a non-empty string |
| Values.NotNoneAdmitsFalsy | app.py:340-342 | `is not None` lets `""` and `0` through, where `if arg:` stops both |
| PartialUpdate.BuildUpdate | app.py:332-348 | the loop grows the clause list and the parameter list together, one pair per argument that passes its test, in argument order, then appends the id: the result is exactly `Fields(cs)` and `Params(cs) + [id]` |
| PartialUpdate.Lockstep | app.py:332-348 | there are as many parameters as clauses, and clause `i` and parameter `i` come from the same supplied argument |
| PartialUpdate.FieldsInArgumentOrder | app.py:332-342 | the clauses appear in the order the function tests its arguments |
| PartialUpdate.FieldsExactlySupplied | app.py:332-342 | a column is in the SET list if and only if an argument for it passes its test |
| PartialUpdate.ColumnSupplied | app.py:332-342 | with distinct column names, a column is in the SET list if and only if its own argument passes its test |
| PartialUpdate.NothingSupplied | app.py:344-346 | the SET list is empty if and only if no argument passes its test |
| PartialUpdate.ApplySetsOfBuilt | app.py:348-353 | running the built clauses positionally writes exactly the supplied arguments, in order |
| PartialUpdate.BuiltStatementTargetsId | app.py:348-353 | the built statement binds the id to the WHERE placeholder: a missing id affects 0 rows and changes nothing; an existing id affects one row, which gets the supplied values |
| Entities.KaryawanFields | app.py:332-346 | each of `perbarui_karyawan`'s columns enters the SET list if and only if its argument passes its test (`employee_name`, `position` tested by truthiness, `fingerprint_id` by `is not None`); the list is empty if and only if none passes |
| Entities.KaryawanApplied | app.py:327-363 | running the clauses `perbarui_karyawan` builds on a row gives `PatchKaryawan`: each column overwritten exactly when its argument passes, kept otherwise |
| Entities.PelangganFields | app.py:444-455 | each of `perbarui_pelanggan`'s columns enters the SET list if and only if its argument passes its test (`cus_name`, `contact_info` tested by truthiness); the list is empty if and only if none passes |
| Entities.PelangganApplied | app.py:439-472 | running the clauses `perbarui_pelanggan` builds on a row gives `PatchPelanggan`: each column overwritten exactly when its argument passes, kept otherwise |
| Entities.SupplierFields | app.py:553-564 | each of `perbarui_supplier`'s columns enters the SET list if and only if its argument passes its test (`supplier_name`, `address` tested by truthiness); the list is empty if and only if none passes |
| Entities.SupplierApplied | app.py:548-581 | running the clauses `perbarui_supplier` builds on a row gives `PatchSupplier`: each column overwritten exactly when its argument passes, kept otherwise |
| Entities.BahanBakuFields | app.py:662-682 | each of `perbarui_bahan_baku`'s columns enters the SET list if and only if its argument passes its test (`nama_bahan`, `satuan`, `supplier_id` tested by truthiness, `stock`, `harga_bahan` by `is not None`); the list is empty if and only if none passes |
| Entities.BahanBakuApplied | app.py:657-699 | running the clauses `perbarui_bahan_baku` builds on a row gives `PatchBahanBaku`: each column overwritten exactly when its argument passes, kept otherwise |
| Entities.MenuFields | app.py:780-791 | each of `perbarui_menu`'s columns enters the SET list if and only if its argument passes its test (`nama_menu` tested by truthiness, `harga` by `is not None`); the list is empty if and only if none passes |
| Entities.MenuApplied | app.py:775-808 | running the clauses `perbarui_menu` builds on a row gives `PatchMenu`: each column overwritten exactly when its argument passes, kept otherwise |
| Entities.TransaksiFields | app.py:889-906 | each of `perbarui_transaksi`'s columns enters the SET list if and only if its argument passes its test (`tanggal_pembelian`, `pelanggan_id`, `karyawan_id` tested by truthiness, `total_transaksi` by `is not None`); the list is empty if and only if none passes |
| Entities.TransaksiApplied | app.py:884-923 | running the clauses `perbarui_transaksi` builds on a row gives `PatchTransaksi`: each column overwritten exactly when its argument passes, kept otherwise |
| Entities.FeedbackFields | app.py:1004-1024 | each of `perbarui_feedback`'s columns enters the SET list if and only if its argument passes its test (`pelanggan_id`, `karyawan_id`, `tanggal`, `komentar` tested by truthiness, `rating` by `is not None`); the list is empty if and only if none passes |
| Entities.FeedbackApplied | app.py:999-1041 | running the clauses `perbarui_feedback` builds on a row gives `PatchFeedback`: each column overwritten exactly when its argument passes, kept otherwise |
| Entities.AbsensiFields | app.py:1122-1136 | each of `perbarui_absensi`'s columns enters the SET list if and only if its argument passes its test (`karyawan_id`, `tanggal`, `status` tested by truthiness); the list is empty if and only if none passes |
| Entities.AbsensiApplied | app.py:1117-1153 | running the clauses `perbarui_absensi` builds on a row gives `PatchAbsensi`: each column overwritten exactly when its argument passes, kept otherwise |
| Tables.InsertEffect | app.py:275-295 | a taken key gives `Duplicate` (the `IntegrityError`) and leaves the table as it was; otherwise `Ok`, one more row under that key, every other row kept |
| Tables.DeleteEffect | app.py:366-383 | a missing key gives `NotFound` (`rowcount == 0`) and no change; otherwise `Ok`, exactly that row gone, every other row kept |
| Tables.DeleteTwiceNeverOkTwice | app.py:366-383 | a second delete of the same key reports `NotFound` and the table stays without that key |
| Tables.UpdateEffect | app.py:327-363 | `NothingToUpdate` if and only if no argument passes; `NotFound` if and only if some argument passes and the key is missing; any outcome but `Ok` leaves the table unchanged; `Ok` keeps the key set, gives the row the supplied values and keeps every other row |
| Tables.RunUpdate | app.py:344-360 | the statement as run (build, return early when empty, execute, read `rowcount`) ends with exactly the outcome and table of `Update` |
| Tables.InsertManySucceeds | app.py:143-146 | an `executemany` batch goes in if and only if its keys are distinct and none is already taken |
| Tables.InsertManyContents | app.py:143-146 | a batch that goes in adds exactly its rows under their keys and keeps every old row |
| Tables.InsertManySize | app.py:143-146 | a batch that goes in grows the table by exactly its length |
| Tables.SeedTableIdempotent | app.py:133-146 | seeding a table that seeding already left behind changes nothing |
| Tables.SeedEmptyTable | app.py:133-146 | an empty table and a batch with distinct keys: seeding succeeds and the table holds exactly the batch |
| Seed.RunSeeding | app.py:130-270 | counting and seeding the eight tables in order, stopping at the first batch that raises, commits exactly when `SeedAll` succeeds and then leaves its result; otherwise nothing changes |
| Seed.InitialBatchesDistinct | app.py:136-266 | no seed batch repeats a key |
| Seed.SeedTableOnEmpty | app.py:133-146 | a batch with distinct keys can always be seeded: into an empty table as the batch, while a table with rows is left alone |
| Seed.SeedAllEffect | app.py:130-270 | foreign keys aside, with batches that repeat no key seeding succeeds, fills exactly the empty tables with their batches and leaves every other table as it was |
| Seed.SeedAllIdempotent | app.py:130-270 | seeding a second time with the same batches changes nothing |
| Seed.InitialDataIdempotent | app.py:130-270 | foreign keys aside, seeding with app.py's own batches never fails, and a second run changes nothing |
| Seed.FreshInstall | app.py:130-270 | on a database whose tables are all empty, app.py's seeding leaves five rows in each of the eight tables |
| Restaurant.Database.constructor | app.py:23-115 | `create_tables` on a new database: every table exists and is empty |
| Restaurant.Database.InsertInitialData | app.py:130-270 | commits all eight seeding steps at once when they all succeed, and then the tables are `SeedAll`'s result; otherwise no table changes |
| Restaurant.Database.TambahKaryawan | app.py:275-295 | `tambah_karyawan` changes only the `karyawan` table, exactly as `Insert`: `Duplicate` and no change for a taken id, else the new row |
| Restaurant.Database.PerbaruiKaryawan | app.py:327-363 | `perbarui_karyawan` changes only the `karyawan` table as `Update` on its argument list; `NothingToUpdate` if and only if no argument passes its test; `NotFound` if and only if some passes and the id is missing; never `Failed`; on `Ok` the row becomes `PatchKaryawan` of the old row and no other row changes |
| Restaurant.Database.HapusKaryawan | app.py:366-383 | `hapus_karyawan` changes only the `karyawan` table, exactly as `Delete` |
| Restaurant.Database.TambahPelanggan | app.py:387-407 | `tambah_pelanggan` changes only the `pelanggan` table, exactly as `Insert`: `Duplicate` and no change for a taken id, else the new row |
| Restaurant.Database.PerbaruiPelanggan | app.py:439-472 | `perbarui_pelanggan` changes only the `pelanggan` table as `Update` on its argument list; `NothingToUpdate` if and only if no argument passes its test; `NotFound` if and only if some passes and the id is missing; never `Failed`; on `Ok` the row becomes `PatchPelanggan` of the old row and no other row changes |
| Restaurant.Database.HapusPelanggan | app.py:475-492 | `hapus_pelanggan` changes only the `pelanggan` table, exactly as `Delete` |
| Restaurant.Database.TambahSupplier | app.py:496-516 | `tambah_supplier` changes only the `supplier` table, exactly as `Insert`: `Duplicate` and no change for a taken id, else the new row |
| Restaurant.Database.PerbaruiSupplier | app.py:548-581 | `perbarui_supplier` changes only the `supplier` table as `Update` on its argument list; `NothingToUpdate` if and only if no argument passes its test; `NotFound` if and only if some passes and the id is missing; never `Failed`; on `Ok` the row becomes `PatchSupplier` of the old row and no other row changes |
| Restaurant.Database.HapusSupplier | app.py:584-601 | `hapus_supplier` changes only the `supplier` table, exactly as `Delete` |
| Restaurant.Database.TambahBahanBaku | app.py:605-625 | `tambah_bahan_baku` changes only the `bahan_baku` table, exactly as `Insert`: `Duplicate` and no change for a taken id, else the new row |
| Restaurant.Database.PerbaruiBahanBaku | app.py:657-699 | `perbarui_bahan_baku` changes only the `bahan_baku` table as `Update` on its argument list; `NothingToUpdate` if and only if no argument passes its test; `NotFound` if and only if some passes and the id is missing; never `Failed`; on `Ok` the row becomes `PatchBahanBaku` of the old row and no other row changes |
| Restaurant.Database.HapusBahanBaku | app.py:702-719 | `hapus_bahan_baku` changes only the `bahan_baku` table, exactly as `Delete` |
| Restaurant.Database.TambahMenu | app.py:723-743 | `tambah_menu` changes only the `menu` table, exactly as `Insert`: `Duplicate` and no change for a taken id, else the new row |
| Restaurant.Database.PerbaruiMenu | app.py:775-808 | `perbarui_menu` changes only the `menu` table as `Update` on its argument list; `NothingToUpdate` if and only if no argument passes its test; `NotFound` if and only if some passes and the id is missing; never `Failed`; on `Ok` the row becomes `PatchMenu` of the old row and no other row changes |
| Restaurant.Database.HapusMenu | app.py:811-828 | `hapus_menu` changes only the `menu` table, exactly as `Delete` |
| Restaurant.Database.TambahTransaksi | app.py:832-852 | `tambah_transaksi` changes only the `transaksi` table, exactly as `Insert`: `Duplicate` and no change for a taken id, else the new row |
| Restaurant.Database.PerbaruiTransaksi | app.py:884-923 | `perbarui_transaksi` changes only the `transaksi` table as `Update` on its argument list; `NothingToUpdate` if and only if no argument passes its test; `NotFound` if and only if some passes and the id is missing; never `Failed`; on `Ok` the row becomes `PatchTransaksi` of the old row and no other row changes |
| Restaurant.Database.HapusTransaksi | app.py:926-943 | `hapus_transaksi` changes only the `transaksi` table, exactly as `Delete` |
| Restaurant.Database.TambahFeedback | app.py:947-967 | `tambah_feedback` changes only the `feedback` table, exactly as `Insert`: `Duplicate` and no change for a taken id, else the new row |
| Restaurant.Database.PerbaruiFeedback | app.py:999-1041 | `perbarui_feedback` changes only the `feedback` table as `Update` on its argument list; `NothingToUpdate` if and only if no argument passes its test; `NotFound` if and only if some passes and the id is missing; never `Failed`; on `Ok` the row becomes `PatchFeedback` of the old row and no other row changes |
| Restaurant.Database.HapusFeedback | app.py:1044-1061 | `hapus_feedback` changes only the `feedback` table, exactly as `Delete` |
| Restaurant.Database.TambahAbsensi | app.py:1065-1085 | `tambah_absensi` changes only the `absensi` table, exactly as `Insert`: `Duplicate` and no change for a taken id, else the new row |
| Restaurant.Database.PerbaruiAbsensi | app.py:1117-1153 | `perbarui_absensi` changes only the `absensi` table as `Update` on its argument list; `NothingToUpdate` if and only if no argument passes its test; `NotFound` if and only if some passes and the id is missing; never `Failed`; on `Ok` the row becomes `PatchAbsensi` of the old row and no other row changes |
| Restaurant.Database.HapusAbsensi | app.py:1156-1173 | `hapus_absensi` changes only the `absensi` table, exactly as `Delete` |
| Grouping.PlaceEffect | app.py:1789-1792 | adding one item to the key-ordered groups keeps them ordered, adds its key, and changes only the aggregate of that key's group |
| Grouping.GroupByEffect | app.py:1789-1792 | `GROUP BY key ORDER BY key`: the groups are strictly ordered (so no key twice), their keys are exactly the items' keys, and each key's aggregate folds exactly the items with that key |
| Grouping.GroupRows | app.py:1789-1792 | every output group holds the aggregate of the non-empty list of items that share its key |
| Grouping.PlaceLast | app.py:1789-1792 | an item whose key is new and comes after every key present opens a new group at the end of the list |
| Sorting.Sort | app.py:1823-1825 | `ORDER BY`'s result is a permutation of its input |
| Sorting.SortOrdered | app.py:1823-1825 | on rows that the order compares totally and transitively, the result is ordered |
| Sorting.SortDistinct | app.py:1856-1860 | sorting keeps rows apart that some key told apart |
| Reports.FoldTotals | app.py:1789-1791 | `SUM(total_transaksi)` of a date's group is the day's takings, as `TotalOn` adds them up row by row |
| Reports.DailyTotalsEffect | app.py:1781-1813 | one row per date that has a purchase, dates strictly descending, each holding that date's total; no purchases, no rows |
| Reports.NameAtMostIsTotal | app.py:1825 | ordering by `nama_bahan` (code-point order) is a total preorder |
| Reports.StockReportEffect | app.py:1815-1846 | every ingredient appears with its name, stock and unit, the rows are a permutation of the table's, in ascending name order |
| Reports.JoinMembers | app.py:1858 | the inner join keeps a row beside its employee's name exactly when its `karyawan_id` is not NULL and names an employee; other rows are dropped |
| Reports.FoldRatings | app.py:1856-1859 | the aggregate of an employee name's group is the number and the sum of the ratings of the feedback whose employee has that name |
| Reports.CrossTransitive | app.py:1860 | comparing averages by cross-multiplication is transitive for positive counts |
| Reports.AverageOrderIsTotal | app.py:1860 | `ORDER BY rata_rata_rating` compares any two groups with ratings, transitively |
| Reports.FeedbackGroupsEffect | app.py:1856-1859 | before the ORDER BY: one group per employee name, names strictly ascending, each with the count (positive) and sum of that name's ratings; a name has a group if and only if it has a rating |
| Reports.FeedbackReportEffect | app.py:1848-1881 | one row per employee name with at least one rating, average non-increasing down the list, no name twice, each row holding the count and sum its `AVG` is computed from |
| Reports.FoldAttendance | app.py:1891-1898 | the five aggregates of an employee name's group are the number of its attendance rows and of those with each of the four statuses |
| Reports.AttendanceReportEffect | app.py:1883-1920 | employee names strictly ascending, each row holding `COUNT` and the four `SUM(CASE ...)` counts for that name (total positive); a name has a row if and only if it has attendance |
| Reports.StatusesPartition | app.py:1891-1895 | when every status is one of the form's four, the four status counts of a name add up to its total |
| Reports.AttendanceAddsUp | app.py:1716 | when every status is one of the four the form offers (`Hadir`, `Tidak Hadir`, `Izin`, `Cuti`), every report row's four counts add up to its total |
| SeedReports.FreshEmployees | app.py:133-148 | foreign keys aside, seeding a database with an empty `karyawan` table succeeds and leaves the five seeded employees under their ids K001-K005 |
| SeedReports.SeedJoin | app.py:1856-1859 | five rows that name K001-K005 in that order all survive the join, each paired with its employee's name |
| SeedReports.SeedNames | app.py:1891-1899 | five joined rows for the five seeded names group into five groups in name order, each aggregating its one row |
| SeedReports.SeedDailyTotals | app.py:1781-1813 | on the seeded purchases the report has five rows, 5 April 2024 down to 1 April 2024, with totals 45000, 35000, 60000, 40000 and 50000 |
| SeedReports.SeedStockReport | app.py:1815-1846 | on the seeded ingredients the report lists Beras, Daging Sapi, Gula, Minyak Goreng and Telur in that order, each with its stock and unit |
| SeedReports.SeedFeedbackReport | app.py:1848-1881 | on the seeded feedback and employees the report lists all five employees, one rating each, by average 5, 5, 4, 4, 3 (Ahmad Fauzi, Budi Santoso, Dewi Lestari, Siti Aminah, Rina Marlina) |
| SeedReports.SeedAttendanceReport | app.py:1883-1921 | on the seeded attendance and employees the report lists the five employees in name order, each with one day, present |

## Left out

- `get_connection` (app.py:7-19) and the secrets it reads are not modelled. Every operation assumes the connection opens; the silent return on a failed connection is left out.
- `create_tables` (app.py:23-127) is reduced to the database constructor: eight empty tables. The DDL text, `IF NOT EXISTS` and its success message are left out.
- The `lihat_*` listings (`SELECT *` into a data frame) are left out: they return the rows in whatever order the database chooses, and promise nothing else.
- The Streamlit pages, forms, messages and CSV downloads (`main`, app.py:1923-1997, and the page functions) are user interface and are left out. Only the four status values of the attendance form (app.py:1716) enter the model, as the assumption of `Reports.AttendanceAddsUp`.
- Foreign keys are not enforced. In PostgreSQL, inserting or updating a row whose `supplier_id`, `pelanggan_id` or `karyawan_id` names no row raises `IntegrityError`, and so does deleting a referenced row. The `tambah_*` code then reports a duplicate id. In the model, `Insert` and `InsertMany` reject only a taken or repeated key, `Delete` always succeeds on an existing key, and so `SeedAll` fails only on such a key. In app.py, a seed row that names a deleted parent row makes the whole seeding fail. For example, after every `bahan_baku` row and then supplier S001 are deleted, the next `insert_initial_data` (run by `create_tables` on every page load) inserts B001, which names S001. That raises, and no empty table is seeded.
- Seed.SeedAllEffect: says seeding succeeds whenever the batches repeat no key. That holds only because foreign keys are not enforced. In app.py, a seed row naming a deleted parent row makes it fail.
- Seed.InitialDataIdempotent: says seeding with app.py's batches never fails on any database. That too holds only because foreign keys are not enforced.
- SeedReports.FreshEmployees: says seeding succeeds when `karyawan` is empty. In app.py, it can still fail on another empty table whose seed rows name a deleted parent row.
- Restaurant.Database.InsertInitialData: takes the seed batches as a parameter. `Seed.InitialBatches` holds app.py's batches, and the lemmas in `Seed` prove that seeding with them is idempotent and, foreign keys aside, never fails. Putting the constant batches in the class method's contract made that proof too costly.
- Driver and database errors other than a duplicate key are left out: `NOT NULL` violations, type errors, numeric overflow and a lost connection. Typed arguments make most of them impossible in the model. `Failed` stands for a clause the database would refuse, and the per-table lemmas prove the builders never produce one.
- Money (`NUMERIC`) and `INTEGER` columns are unbounded integers. Fractions of a currency unit and the 32-bit range of `INTEGER` are not modelled.
- Reports.FeedbackReportEffect: states each row's rating count and sum, not the `AVG` value. The order is compared by cross-multiplication, which is exact. The decimal rounding of `AVG` is left out.
- Text order is code-point order. The database collation may order text differently (case, accents), and that is not modelled.
- Rows that tie under `ORDER BY nama_bahan` or `ORDER BY rata_rata_rating` come out in an order the database chooses. The model picks one order, and its lemmas state only that the result is ordered and is a permutation of the input. `SeedReports.SeedFeedbackReport` states the model's order for the tie between Dewi Lestari and Siti Aminah; the database may list them the other way round.
- The reports take the rows of each table as a sequence in any order. All their lemmas hold for every order. The step from the `Database` class's maps to such a sequence is not modelled, because a map has no order.
- In the code, a `perbarui_*` call with nothing to update returns without closing its connection. The model has no connections, so this leak is not modelled.
- Concurrent sessions and transaction isolation are left out. Every operation runs alone.
- Dates are not checked for validity. A `Date` is any triple of integers, ordered as year, month, day.
