/** The rows `insert_initial_data` puts into each empty table, and the whole
    seeding step as one function of the database's state. */
module Seed {
  import opened Values
  import opened Entities
  import opened Tables

  const KaryawanSeed: seq<(string, Karyawan)> := [
    ("K001", Karyawan("Ahmad Fauzi", "Manager", Some("FP001"))),
    ("K002", Karyawan("Siti Aminah", "Waiter", Some("FP002"))),
    ("K003", Karyawan("Budi Santoso", "Chef", Some("FP003"))),
    ("K004", Karyawan("Rina Marlina", "Cashier", Some("FP004"))),
    ("K005", Karyawan("Dewi Lestari", "Operational", Some("FP005")))
  ]

  const PelangganSeed: seq<(string, Pelanggan)> := [
    ("P001", Pelanggan("Mansur", "mansur123@contohemail.com")),
    ("P002", Pelanggan("Sir Joko", "joko456@contohemail.com")),
    ("P003", Pelanggan("Pak Amba", "amba789@contohemail.com")),
    ("P004", Pelanggan("Ibu Tukam", "tukam101112@contohemail.com")),
    ("P005", Pelanggan("Maemunah", "maemunah131415@contohemail.com"))
  ]

  const SupplierSeed: seq<(string, Supplier)> := [
    ("S001", Supplier("Supplier A", "Jl. Raya No.1")),
    ("S002", Supplier("Supplier B", "Jl. Merdeka No.2")),
    ("S003", Supplier("Supplier C", "Jl. Sudirman No.3")),
    ("S004", Supplier("Supplier D", "Jl. Thamrin No.4")),
    ("S005", Supplier("Supplier E", "Jl. Diponegoro No.5"))
  ]

  const BahanBakuSeed: seq<(string, BahanBaku)> := [
    ("B001", BahanBaku("Beras", 100, "kg", 50000, Some("S001"))),
    ("B002", BahanBaku("Gula", 200, "kg", 30000, Some("S002"))),
    ("B003", BahanBaku("Minyak Goreng", 150, "liter", 40000, Some("S003"))),
    ("B004", BahanBaku("Telur", 500, "butir", 5000, Some("S004"))),
    ("B005", BahanBaku("Daging Sapi", 80, "kg", 100000, Some("S005")))
  ]

  const MenuSeed: seq<(string, Menu)> := [
    ("M001", Menu("Nasi Goreng", 25000)),
    ("M002", Menu("Mie Ayam", 20000)),
    ("M003", Menu("Sate Ayam", 30000)),
    ("M004", Menu("Ayam Bakar", 35000)),
    ("M005", Menu("Es Teh Manis", 8000))
  ]

  const TransaksiSeed: seq<(string, Transaksi)> := [
    ("T001", Transaksi(Date(2024, 4, 1), Some("P001"), Some("K001"), 50000)),
    ("T002", Transaksi(Date(2024, 4, 2), Some("P002"), Some("K002"), 40000)),
    ("T003", Transaksi(Date(2024, 4, 3), Some("P003"), Some("K003"), 60000)),
    ("T004", Transaksi(Date(2024, 4, 4), Some("P004"), Some("K004"), 35000)),
    ("T005", Transaksi(Date(2024, 4, 5), Some("P005"), Some("K005"), 45000))
  ]

  const FeedbackSeed: seq<(string, Feedback)> := [
    ("F001", Feedback(Some("P001"), Some("K001"), Date(2024, 4, 1), 5, Some("Pelayanan sangat baik!"))),
    ("F002", Feedback(Some("P002"), Some("K002"), Date(2024, 4, 2), 4, Some("Makanan enak, cepat saji."))),
    ("F003", Feedback(Some("P003"), Some("K003"), Date(2024, 4, 3), 5, Some("Chef hebat!"))),
    ("F004", Feedback(Some("P004"), Some("K004"), Date(2024, 4, 4), 3, Some("Kasir ramah."))),
    ("F005", Feedback(Some("P005"), Some("K005"), Date(2024, 4, 5), 4, Some("Operasional lancar.")))
  ]

  const AbsensiSeed: seq<(string, Absensi)> := [
    ("A001", Absensi(Some("K001"), Date(2024, 4, 1), "Hadir")),
    ("A002", Absensi(Some("K002"), Date(2024, 4, 1), "Hadir")),
    ("A003", Absensi(Some("K003"), Date(2024, 4, 1), "Hadir")),
    ("A004", Absensi(Some("K004"), Date(2024, 4, 1), "Hadir")),
    ("A005", Absensi(Some("K005"), Date(2024, 4, 1), "Hadir"))
  ]

  /** The committed contents of the eight tables. */
  datatype Db = Db(
    karyawan: map<string, Karyawan>,
    pelanggan: map<string, Pelanggan>,
    supplier: map<string, Supplier>,
    bahanBaku: map<string, BahanBaku>,
    menu: map<string, Menu>,
    transaksi: map<string, Transaksi>,
    feedback: map<string, Feedback>,
    absensi: map<string, Absensi>)

  /** One batch of rows per table. */
  datatype Batches = Batches(
    karyawan: seq<(string, Karyawan)>,
    pelanggan: seq<(string, Pelanggan)>,
    supplier: seq<(string, Supplier)>,
    bahanBaku: seq<(string, BahanBaku)>,
    menu: seq<(string, Menu)>,
    transaksi: seq<(string, Transaksi)>,
    feedback: seq<(string, Feedback)>,
    absensi: seq<(string, Absensi)>)

  /** The batches `insert_initial_data` writes. */
  const InitialBatches: Batches := Batches(KaryawanSeed, PelangganSeed, SupplierSeed, BahanBakuSeed,
                                           MenuSeed, TransaksiSeed, FeedbackSeed, AbsensiSeed)

  /** `insert_initial_data` with the batches `seeds`: each table that counts
      zero rows receives its batch; the commit comes after the last batch, so
      when any batch raises nothing is committed (`None`). */
  function SeedAll(db: Db, seeds: Batches): Option<Db>
  {
    var k := SeedTable(db.karyawan, seeds.karyawan);
    var p := SeedTable(db.pelanggan, seeds.pelanggan);
    var s := SeedTable(db.supplier, seeds.supplier);
    var b := SeedTable(db.bahanBaku, seeds.bahanBaku);
    var m := SeedTable(db.menu, seeds.menu);
    var t := SeedTable(db.transaksi, seeds.transaksi);
    var f := SeedTable(db.feedback, seeds.feedback);
    var a := SeedTable(db.absensi, seeds.absensi);
    if k.Some? && p.Some? && s.Some? && b.Some? && m.Some? && t.Some? && f.Some? && a.Some?
    then Some(Db(k.value, p.value, s.value, b.value, m.value, t.value, f.value, a.value))
    else None
  }

  /** The steps of `insert_initial_data` in their order: each table is
      counted and, when empty, receives its batch; the first batch that raises
      ends the step with nothing to commit. */
  method RunSeeding(db: Db, seeds: Batches) returns (committed: bool, after: Db)
    ensures committed <==> SeedAll(db, seeds).Some?
    ensures committed ==> after == SeedAll(db, seeds).value
    ensures !committed ==> after == db
  {
    var k := SeedTable(db.karyawan, seeds.karyawan);
    if k.None? { return false, db; }
    var p := SeedTable(db.pelanggan, seeds.pelanggan);
    if p.None? { return false, db; }
    var s := SeedTable(db.supplier, seeds.supplier);
    if s.None? { return false, db; }
    var b := SeedTable(db.bahanBaku, seeds.bahanBaku);
    if b.None? { return false, db; }
    var m := SeedTable(db.menu, seeds.menu);
    if m.None? { return false, db; }
    var t := SeedTable(db.transaksi, seeds.transaksi);
    if t.None? { return false, db; }
    var f := SeedTable(db.feedback, seeds.feedback);
    if f.None? { return false, db; }
    var a := SeedTable(db.absensi, seeds.absensi);
    if a.None? { return false, db; }
    committed, after := true, Db(k.value, p.value, s.value, b.value, m.value, t.value, f.value, a.value);
  }

  /** `after` is what seeding leaves of `before`: the batch if `before` was
      empty, `before` itself otherwise. */
  ghost predicate SeededFrom<R>(before: map<string, R>, after: map<string, R>, rows: seq<(string, R)>)
  {
    if |before| == 0 then
      && |after| == |rows|
      && after.Keys == KeySet(rows)
      && (forall i :: 0 <= i < |rows| ==> after[rows[i].0] == rows[i].1)
    else after == before
  }

  /** No key occurs twice in a batch. */
  predicate DistinctKeys<R>(rows: seq<(string, R)>)
  {
    forall i, j :: 0 <= i < j < |rows| ==> rows[i].0 != rows[j].0
  }

  /** No batch repeats a key. */
  predicate Distinct(seeds: Batches)
  {
    && DistinctKeys(seeds.karyawan) && DistinctKeys(seeds.pelanggan)
    && DistinctKeys(seeds.supplier) && DistinctKeys(seeds.bahanBaku)
    && DistinctKeys(seeds.menu) && DistinctKeys(seeds.transaksi)
    && DistinctKeys(seeds.feedback) && DistinctKeys(seeds.absensi)
  }

  // Each seed batch uses each key once (K001-K005, P001-P005, ...).
  lemma KaryawanSeedDistinct() ensures DistinctKeys(KaryawanSeed) {}
  lemma PelangganSeedDistinct() ensures DistinctKeys(PelangganSeed) {}
  lemma SupplierSeedDistinct() ensures DistinctKeys(SupplierSeed) {}
  lemma BahanBakuSeedDistinct() ensures DistinctKeys(BahanBakuSeed) {}
  lemma MenuSeedDistinct() ensures DistinctKeys(MenuSeed) {}
  lemma TransaksiSeedDistinct() ensures DistinctKeys(TransaksiSeed) {}
  lemma FeedbackSeedDistinct() ensures DistinctKeys(FeedbackSeed) {}
  lemma AbsensiSeedDistinct() ensures DistinctKeys(AbsensiSeed) {}

  lemma InitialBatchesDistinct()
    ensures Distinct(InitialBatches)
  {
    KaryawanSeedDistinct();
    PelangganSeedDistinct();
    SupplierSeedDistinct();
    BahanBakuSeedDistinct();
    MenuSeedDistinct();
    TransaksiSeedDistinct();
    FeedbackSeedDistinct();
    AbsensiSeedDistinct();
  }

  /** A batch with distinct keys can always be seeded. */
  lemma {:induction false} SeedTableOnEmpty<R>(t: map<string, R>, rows: seq<(string, R)>)
    requires DistinctKeys(rows)
    ensures SeedTable(t, rows).Some? && SeededFrom(t, SeedTable(t, rows).value, rows)
  {
    if |t| == 0 {
      assert t == map[];
      SeedEmptyTable(t, rows);
    }
  }

  /** With batches that repeat no key, seeding never fails (foreign keys
      aside), fills exactly the empty tables with their batches and leaves
      every other table as it was. */
  lemma SeedAllEffect(db: Db, seeds: Batches)
    requires Distinct(seeds)
    ensures SeedAll(db, seeds).Some?
    ensures var d := SeedAll(db, seeds).value;
      && SeededFrom(db.karyawan, d.karyawan, seeds.karyawan)
      && SeededFrom(db.pelanggan, d.pelanggan, seeds.pelanggan)
      && SeededFrom(db.supplier, d.supplier, seeds.supplier)
      && SeededFrom(db.bahanBaku, d.bahanBaku, seeds.bahanBaku)
      && SeededFrom(db.menu, d.menu, seeds.menu)
      && SeededFrom(db.transaksi, d.transaksi, seeds.transaksi)
      && SeededFrom(db.feedback, d.feedback, seeds.feedback)
      && SeededFrom(db.absensi, d.absensi, seeds.absensi)
  {
    SeedTableOnEmpty(db.karyawan, seeds.karyawan);
    SeedTableOnEmpty(db.pelanggan, seeds.pelanggan);
    SeedTableOnEmpty(db.supplier, seeds.supplier);
    SeedTableOnEmpty(db.bahanBaku, seeds.bahanBaku);
    SeedTableOnEmpty(db.menu, seeds.menu);
    SeedTableOnEmpty(db.transaksi, seeds.transaksi);
    SeedTableOnEmpty(db.feedback, seeds.feedback);
    SeedTableOnEmpty(db.absensi, seeds.absensi);
  }

  /** After a run that succeeded, seeding a second time with the same
      batches changes nothing. */
  lemma SeedAllIdempotent(db: Db, seeds: Batches)
    requires SeedAll(db, seeds).Some?
    ensures SeedAll(SeedAll(db, seeds).value, seeds) == SeedAll(db, seeds)
  {
    SeedTableIdempotent(db.karyawan, seeds.karyawan);
    SeedTableIdempotent(db.pelanggan, seeds.pelanggan);
    SeedTableIdempotent(db.supplier, seeds.supplier);
    SeedTableIdempotent(db.bahanBaku, seeds.bahanBaku);
    SeedTableIdempotent(db.menu, seeds.menu);
    SeedTableIdempotent(db.transaksi, seeds.transaksi);
    SeedTableIdempotent(db.feedback, seeds.feedback);
    SeedTableIdempotent(db.absensi, seeds.absensi);
  }

  /** Seeding with app.py's batches never fails (foreign keys aside) and is
      idempotent, on any database. */
  lemma InitialDataIdempotent(db: Db)
    ensures SeedAll(db, InitialBatches).Some?
    ensures SeedAll(SeedAll(db, InitialBatches).value, InitialBatches) == SeedAll(db, InitialBatches)
  {
    InitialBatchesDistinct();
    SeedAllEffect(db, InitialBatches);
    SeedAllIdempotent(db, InitialBatches);
  }

  /** On a fresh installation (every table empty) app.py's seeding ends
      with five rows in every table. */
  lemma FreshInstall(db: Db)
    requires |db.karyawan| == 0 && |db.pelanggan| == 0 && |db.supplier| == 0 && |db.bahanBaku| == 0
    requires |db.menu| == 0 && |db.transaksi| == 0 && |db.feedback| == 0 && |db.absensi| == 0
    ensures SeedAll(db, InitialBatches).Some?
    ensures var d := SeedAll(db, InitialBatches).value;
      && |d.karyawan| == 5 && |d.pelanggan| == 5 && |d.supplier| == 5 && |d.bahanBaku| == 5
      && |d.menu| == 5 && |d.transaksi| == 5 && |d.feedback| == 5 && |d.absensi| == 5
  {
    InitialBatchesDistinct();
    SeedAllEffect(db, InitialBatches);
  }
}
