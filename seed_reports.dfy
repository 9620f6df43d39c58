/** The four reports evaluated on the rows that seeding puts into an empty
    database: what the report pages show on a fresh install. */
module SeedReports {
  import opened Values
  import opened Ordering
  import opened Entities
  import opened Grouping
  import opened Sorting
  import opened Reports
  import opened Seed

  /** The rows of a seed batch, in the order they are inserted. */
  function Rows<R>(batch: seq<(string, R)>): (r: seq<R>)
    ensures |r| == |batch| && forall i :: 0 <= i < |batch| ==> r[i] == batch[i].1
  {
    seq(|batch|, i requires 0 <= i < |batch| => batch[i].1)
  }

  // ------------------------------------------------------------ daily totals

  /** Five purchases on five different days: one row per day, newest first,
      each holding that day's single total. */
  lemma SeedDailyTotals()
    ensures DailyTotals(Rows(TransaksiSeed))
            == [Group(Date(2024, 4, 5), 45000), Group(Date(2024, 4, 4), 35000), Group(Date(2024, 4, 3), 60000),
                Group(Date(2024, 4, 2), 40000), Group(Date(2024, 4, 1), 50000)]
  {
    var rows := Rows(TransaksiSeed);
    var g := [Group(Date(2024, 4, 5), 45000), Group(Date(2024, 4, 4), 35000), Group(Date(2024, 4, 3), 60000),
              Group(Date(2024, 4, 2), 40000), Group(Date(2024, 4, 1), 50000)];
    assert rows[5..] == [];
    assert rows[4..][1..] == rows[5..];
    PlaceLast(Later, AddTotal, 0, g[..0], rows[4].tanggalPembelian, rows[4]);
    assert g[..1] == g[..0] + [g[0]];
    assert GroupBy(Later, PurchaseDate, AddTotal, 0, rows[4..]) == g[..1];
    assert rows[3..][1..] == rows[4..];
    PlaceLast(Later, AddTotal, 0, g[..1], rows[3].tanggalPembelian, rows[3]);
    assert g[..2] == g[..1] + [g[1]];
    assert GroupBy(Later, PurchaseDate, AddTotal, 0, rows[3..]) == g[..2];
    assert rows[2..][1..] == rows[3..];
    PlaceLast(Later, AddTotal, 0, g[..2], rows[2].tanggalPembelian, rows[2]);
    assert g[..3] == g[..2] + [g[2]];
    assert GroupBy(Later, PurchaseDate, AddTotal, 0, rows[2..]) == g[..3];
    assert rows[1..][1..] == rows[2..];
    PlaceLast(Later, AddTotal, 0, g[..3], rows[1].tanggalPembelian, rows[1]);
    assert g[..4] == g[..3] + [g[3]];
    assert GroupBy(Later, PurchaseDate, AddTotal, 0, rows[1..]) == g[..4];
    PlaceLast(Later, AddTotal, 0, g[..4], rows[0].tanggalPembelian, rows[0]);
    assert g[..5] == g[..4] + [g[4]];
  }

  // ------------------------------------------- rows joined to the employees

  /** A `karyawan` table that holds the five seeded employees. */
  predicate HoldsSeedEmployees(ks: map<string, Karyawan>)
  {
    forall i :: 0 <= i < |KaryawanSeed| ==> KaryawanSeed[i].0 in ks && ks[KaryawanSeed[i].0] == KaryawanSeed[i].1
  }

  /** Seeding an empty `karyawan` table leaves one that holds them (foreign
      keys aside: the seeding of another table may still fail in app.py). */
  lemma FreshEmployees(db: Db)
    requires |db.karyawan| == 0
    ensures SeedAll(db, InitialBatches).Some?
    ensures HoldsSeedEmployees(SeedAll(db, InitialBatches).value.karyawan)
  {
    InitialBatchesDistinct();
    SeedAllEffect(db, InitialBatches);
  }

  /** Five rows that name the five seeded employees in seed order keep all
      five through the join, each under its employee's name. */
  lemma SeedJoin<V>(ks: map<string, Karyawan>, rows: seq<V>, idOf: V -> Option<string>)
    requires HoldsSeedEmployees(ks)
    requires |rows| == 5 && forall i :: 0 <= i < 5 ==> idOf(rows[i]) == Some(KaryawanSeed[i].0)
    ensures Join(ks, rows, idOf)
            == [("Ahmad Fauzi", rows[0]), ("Siti Aminah", rows[1]), ("Budi Santoso", rows[2]),
                ("Rina Marlina", rows[3]), ("Dewi Lestari", rows[4])]
  {
    var j := [("Ahmad Fauzi", rows[0]), ("Siti Aminah", rows[1]), ("Budi Santoso", rows[2]),
              ("Rina Marlina", rows[3]), ("Dewi Lestari", rows[4])];
    assert ks["K001"].employeeName == "Ahmad Fauzi" by { assert KaryawanSeed[0].0 == "K001"; }
    assert ks["K002"].employeeName == "Siti Aminah" by { assert KaryawanSeed[1].0 == "K002"; }
    assert ks["K003"].employeeName == "Budi Santoso" by { assert KaryawanSeed[2].0 == "K003"; }
    assert ks["K004"].employeeName == "Rina Marlina" by { assert KaryawanSeed[3].0 == "K004"; }
    assert ks["K005"].employeeName == "Dewi Lestari" by { assert KaryawanSeed[4].0 == "K005"; }
    assert rows[5..] == [];
    assert rows[4..][1..] == rows[5..];
    assert rows[3..][1..] == rows[4..];
    assert rows[2..][1..] == rows[3..];
    assert rows[1..][1..] == rows[2..];
    assert Join(ks, rows[4..], idOf) == j[4..];
    assert Join(ks, rows[3..], idOf) == j[3..];
    assert Join(ks, rows[2..], idOf) == j[2..];
    assert Join(ks, rows[1..], idOf) == j[1..];
  }

  /** Grouping the last four joined rows by name: four groups, in name order. */
  lemma SeedNamesLater<V, A>(step: (A, (string, V)) -> A, init: A, x1: V, x2: V, x3: V, x4: V)
    ensures GroupBy(StrLess, EmployeeName, step, init,
                    [("Siti Aminah", x1), ("Budi Santoso", x2), ("Rina Marlina", x3), ("Dewi Lestari", x4)])
            == [Group("Budi Santoso", step(init, ("Budi Santoso", x2))),
                Group("Dewi Lestari", step(init, ("Dewi Lestari", x4))),
                Group("Rina Marlina", step(init, ("Rina Marlina", x3))),
                Group("Siti Aminah", step(init, ("Siti Aminah", x1)))]
  {
    var j := [("Siti Aminah", x1), ("Budi Santoso", x2), ("Rina Marlina", x3), ("Dewi Lestari", x4)];
    var b, d, r := Group("Budi Santoso", step(init, j[1])), Group("Dewi Lestari", step(init, j[3])),
                   Group("Rina Marlina", step(init, j[2]));
    assert j[4..] == [] && j[3..][1..] == j[4..] && j[2..][1..] == j[3..] && j[1..][1..] == j[2..];
    assert GroupBy(StrLess, EmployeeName, step, init, j[3..]) == [d];
    assert !StrLess("Rina Marlina", "Dewi Lestari");
    PlaceLast(StrLess, step, init, [d], "Rina Marlina", j[2]);
    assert GroupBy(StrLess, EmployeeName, step, init, j[2..]) == [d, r];
    assert GroupBy(StrLess, EmployeeName, step, init, j[1..]) == [b, d, r];
    assert !StrLess("Siti Aminah", "Budi Santoso") && !StrLess("Siti Aminah", "Dewi Lestari")
           && !StrLess("Siti Aminah", "Rina Marlina");
    PlaceLast(StrLess, step, init, [b, d, r], "Siti Aminah", j[0]);
  }

  /** Grouping the five joined rows by name: one group per employee, in name
      order, each folded from that employee's single row. */
  lemma SeedNames<V, A>(step: (A, (string, V)) -> A, init: A, x0: V, x1: V, x2: V, x3: V, x4: V)
    ensures GroupBy(StrLess, EmployeeName, step, init,
                    [("Ahmad Fauzi", x0), ("Siti Aminah", x1), ("Budi Santoso", x2), ("Rina Marlina", x3),
                     ("Dewi Lestari", x4)])
            == [Group("Ahmad Fauzi", step(init, ("Ahmad Fauzi", x0))),
                Group("Budi Santoso", step(init, ("Budi Santoso", x2))),
                Group("Dewi Lestari", step(init, ("Dewi Lestari", x4))),
                Group("Rina Marlina", step(init, ("Rina Marlina", x3))),
                Group("Siti Aminah", step(init, ("Siti Aminah", x1)))]
  {
    var j := [("Ahmad Fauzi", x0), ("Siti Aminah", x1), ("Budi Santoso", x2), ("Rina Marlina", x3), ("Dewi Lestari", x4)];
    assert j[1..] == [("Siti Aminah", x1), ("Budi Santoso", x2), ("Rina Marlina", x3), ("Dewi Lestari", x4)];
    SeedNamesLater(step, init, x1, x2, x3, x4);
    assert StrLess("Ahmad Fauzi", "Budi Santoso");
  }

  // -------------------------------------------------------- feedback report

  /** Insertion sort of five rows of which only the fourth is out of place,
      with the list written as heads and tails. */
  lemma SortFourthLastCons<T>(le: (T, T) -> bool, a: T, b: T, c: T, d: T, e: T)
    requires !le(d, e) && le(c, e) && le(b, c) && le(a, b)
    ensures Sort(le, [a] + ([b] + ([c] + [d, e]))) == [a] + ([b] + ([c] + [e, d]))
  {
    assert [d, e][1..] == [e] && [e][1..] == [];
    assert Sort(le, [e]) == [e];
    assert Sort(le, [d, e]) == [e, d];
    assert Sort(le, [d, e]) == [e, d];
    var s2, t2 := [d, e], [e, d];
    SortCons(le, c, s2);
    InsertFront(le, c, t2);
    assert Sort(le, [c] + s2) == [c] + t2;
    var s3, t3 := [c] + s2, [c] + t2;
    SortCons(le, b, s3);
    InsertFront(le, b, t3);
    assert Sort(le, [b] + s3) == [b] + t3;
    var s4, t4 := [b] + s3, [b] + t3;
    SortCons(le, a, s4);
    InsertFront(le, a, t4);
    assert Sort(le, [a] + s4) == [a] + t4;
  }

  lemma FiveCons<T>(a: T, b: T, c: T, d: T, e: T)
    ensures [a] + ([b] + ([c] + [d, e])) == [a, b, c, d, e]
  {
  }

  lemma SortFourthLast<T>(le: (T, T) -> bool, a: T, b: T, c: T, d: T, e: T)
    requires !le(d, e) && le(c, e) && le(b, c) && le(a, b)
    ensures Sort(le, [a, b, c, d, e]) == [a, b, c, e, d]
  {
    SortFourthLastCons(le, a, b, c, d, e);
    FiveCons(a, b, c, d, e);
    FiveCons(a, b, c, e, d);
  }

  /** Ratings 5, 4, 5, 3, 4 from the five seeded employees: all five are
      listed, by average rating, highest first. Dewi Lestari and Siti Aminah
      tie at 4 and come out in name order. */
  lemma SeedFeedbackReport(ks: map<string, Karyawan>)
    requires HoldsSeedEmployees(ks)
    ensures FeedbackReport(ks, Rows(FeedbackSeed))
            == [Group("Ahmad Fauzi", Ratings(1, 5)), Group("Budi Santoso", Ratings(1, 5)),
                Group("Dewi Lestari", Ratings(1, 4)), Group("Siti Aminah", Ratings(1, 4)),
                Group("Rina Marlina", Ratings(1, 3))]
  {
    var fs := Rows(FeedbackSeed);
    SeedJoin(ks, fs, FeedbackEmployee);
    SeedNames(AddRating, Ratings(0, 0), fs[0], fs[1], fs[2], fs[3], fs[4]);
    SortFourthLast(AverageAtLeast, Group("Ahmad Fauzi", Ratings(1, 5)), Group("Budi Santoso", Ratings(1, 5)),
                   Group("Dewi Lestari", Ratings(1, 4)), Group("Rina Marlina", Ratings(1, 3)),
                   Group("Siti Aminah", Ratings(1, 4)));
  }

  // ----------------------------------------------------------- stock report

  /** Insertion sort of five rows whose last row goes second. */
  lemma SortLastSecondCons<T>(le: (T, T) -> bool, a: T, b: T, c: T, d: T, e: T)
    requires le(a, e) && !le(b, e) && le(b, c) && !le(c, e) && le(c, d) && !le(d, e)
    ensures Sort(le, [a] + ([b] + ([c] + [d, e]))) == [a] + ([e] + ([b] + [c, d]))
  {
    assert [d, e][1..] == [e] && [e][1..] == [];
    assert Sort(le, [e]) == [e];
    assert Sort(le, [d, e]) == [e, d];
    var s2 := [d, e];
    SortCons(le, c, s2);
    InsertBehind(le, c, e, [d]);
    InsertFront(le, c, [d]);
    assert Sort(le, [c] + s2) == [e] + [c, d];
    var s3 := [c] + s2;
    SortCons(le, b, s3);
    InsertBehind(le, b, e, [c, d]);
    InsertFront(le, b, [c, d]);
    assert Sort(le, [b] + s3) == [e] + ([b] + [c, d]);
    var s4 := [b] + s3;
    SortCons(le, a, s4);
    InsertFront(le, a, [e] + ([b] + [c, d]));
  }

  lemma SortLastSecond<T>(le: (T, T) -> bool, a: T, b: T, c: T, d: T, e: T)
    requires le(a, e) && !le(b, e) && le(b, c) && !le(c, e) && le(c, d) && !le(d, e)
    ensures Sort(le, [a, b, c, d, e]) == [a, e, b, c, d]
  {
    SortLastSecondCons(le, a, b, c, d, e);
    FiveCons(a, b, c, d, e);
    FiveCons(a, e, b, c, d);
  }

  /** The five seeded ingredients, listed by name, A to Z. */
  lemma SeedStockReport()
    ensures StockReport(Rows(BahanBakuSeed))
            == [StockRow("Beras", 100, "kg"), StockRow("Daging Sapi", 80, "kg"), StockRow("Gula", 200, "kg"),
                StockRow("Minyak Goreng", 150, "liter"), StockRow("Telur", 500, "butir")]
  {
    var rows := StockRows(Rows(BahanBakuSeed));
    assert rows == [StockRow("Beras", 100, "kg"), StockRow("Gula", 200, "kg"), StockRow("Minyak Goreng", 150, "liter"),
                    StockRow("Telur", 500, "butir"), StockRow("Daging Sapi", 80, "kg")];
    assert StrLess("Beras", "Daging Sapi") && StrLess("Daging Sapi", "Gula") && StrLess("Gula", "Minyak Goreng")
           && StrLess("Daging Sapi", "Minyak Goreng") && StrLess("Minyak Goreng", "Telur") && StrLess("Daging Sapi", "Telur");
    StrLessAsymmetric("Beras", "Daging Sapi");
    StrLessAsymmetric("Gula", "Minyak Goreng");
    StrLessAsymmetric("Minyak Goreng", "Telur");
    SortLastSecond(NameAtMost, rows[0], rows[1], rows[2], rows[3], rows[4]);
  }

  // ------------------------------------------------------ attendance report

  /** Five seeded attendance rows, one per employee, all `Hadir`: one row per
      employee in name order, each counting one day present. */
  lemma SeedAttendanceReport(ks: map<string, Karyawan>)
    requires HoldsSeedEmployees(ks)
    ensures AttendanceReport(ks, Rows(AbsensiSeed))
            == [Group("Ahmad Fauzi", Tally(1, 1, 0, 0, 0)), Group("Budi Santoso", Tally(1, 1, 0, 0, 0)),
                Group("Dewi Lestari", Tally(1, 1, 0, 0, 0)), Group("Rina Marlina", Tally(1, 1, 0, 0, 0)),
                Group("Siti Aminah", Tally(1, 1, 0, 0, 0))]
  {
    var ar := Rows(AbsensiSeed);
    SeedJoin(ks, ar, AttendanceEmployee);
    SeedNames(AddAttendance, Tally(0, 0, 0, 0, 0), ar[0], ar[1], ar[2], ar[3], ar[4]);
  }
}
