/** The four reports of the Laporan page, as the result sets their queries
    return. Each takes the rows of the tables it reads, in whatever order
    the database hands them over; every property below holds for all orders. */
module Reports {
  import opened Values
  import opened Ordering
  import opened Entities
  import opened Grouping
  import opened Sorting

  // ------------------------------------------------ total_transaksi_per_hari

  function PurchaseDate(t: Transaksi): Date
  {
    t.tanggalPembelian
  }

  function AddTotal(sum: int, t: Transaksi): int
  {
    sum + t.totalTransaksi
  }

  /** One row per purchase date, newest first, holding the sum of that
      day's totals. */
  function DailyTotals(rows: seq<Transaksi>): seq<Group<Date, int>>
  {
    GroupBy(Later, PurchaseDate, AddTotal, 0, rows)
  }

  /** Reference: the money taken on day `d`. */
  function TotalOn(rows: seq<Transaksi>, d: Date): int
  {
    if rows == [] then 0
    else (if rows[0].tanggalPembelian == d then rows[0].totalTransaksi else 0) + TotalOn(rows[1..], d)
  }

  /** The days on which something was sold. */
  function PurchaseDates(rows: seq<Transaksi>): set<Date>
  {
    set i | 0 <= i < |rows| :: rows[i].tanggalPembelian
  }

  lemma {:induction false} FoldTotals(rows: seq<Transaksi>, d: Date)
    ensures Fold(AddTotal, 0, Select(PurchaseDate, rows, d)) == TotalOn(rows, d)
  {
    if rows != [] {
      FoldTotals(rows[1..], d);
      var s := Select(PurchaseDate, rows[1..], d);
      if rows[0].tanggalPembelian == d {
        assert Select(PurchaseDate, rows, d) == [rows[0]] + s;
        FoldCons(AddTotal, 0, rows[0], s);
      } else {
        assert Select(PurchaseDate, rows, d) == s;
      }
    }
  }

  /** One row per day that has sales, newest first, each holding that day's
      total; no sales, no rows. */
  lemma DailyTotalsEffect(rows: seq<Transaksi>)
    ensures var r := DailyTotals(rows);
      && (forall i, j :: 0 <= i < j < |r| ==> DateBefore(r[j].key, r[i].key))
      && KeysOf(r) == PurchaseDates(rows)
      && (forall i :: 0 <= i < |r| ==> r[i].acc == TotalOn(rows, r[i].key))
      && (r == [] <==> rows == [])
  {
    var r := DailyTotals(rows);
    LaterIsStrictTotal();
    GroupByEffect(Later, PurchaseDate, AddTotal, 0, rows);
    GroupRows(Later, PurchaseDate, AddTotal, 0, rows);
    forall i | 0 <= i < |r| ensures r[i].acc == TotalOn(rows, r[i].key) {
      FoldTotals(rows, r[i].key);
    }
    if rows != [] {
      assert rows[0].tanggalPembelian in PurchaseDates(rows);
    }
    if r != [] {
      assert r[0].key in KeysOf(r);
    }
  }

  // ------------------------------------------------ stok_bahan_baku_laporan

  /** One row of `SELECT nama_bahan, stock, satuan FROM bahan_baku`. */
  datatype StockRow = StockRow(namaBahan: string, stock: int, satuan: string)

  function StockOf(b: BahanBaku): StockRow
  {
    StockRow(b.namaBahan, b.stock, b.satuan)
  }

  function StockRows(bs: seq<BahanBaku>): seq<StockRow>
  {
    seq(|bs|, i requires 0 <= i < |bs| => StockOf(bs[i]))
  }

  /** `a` may precede `b` under `ORDER BY nama_bahan ASC`. */
  predicate NameAtMost(a: StockRow, b: StockRow)
  {
    !StrLess(b.namaBahan, a.namaBahan)
  }

  /** Every ingredient's name, stock and unit, by name ascending. */
  function StockReport(bs: seq<BahanBaku>): seq<StockRow>
  {
    Sort(NameAtMost, StockRows(bs))
  }

  predicate AnyStockRow(r: StockRow)
  {
    true
  }

  lemma NameAtMostIsTotal()
    ensures TotalPreorderOn(NameAtMost, AnyStockRow)
  {
    forall a, b ensures NameAtMost(a, b) || NameAtMost(b, a) {
      if StrLess(b.namaBahan, a.namaBahan) {
        StrLessAsymmetric(b.namaBahan, a.namaBahan);
      }
    }
    forall a, b, c | NameAtMost(a, b) && NameAtMost(b, c) ensures NameAtMost(a, c) {
      StrLessTrichotomy(a.namaBahan, b.namaBahan);
      StrLessTrichotomy(b.namaBahan, c.namaBahan);
      if StrLess(a.namaBahan, b.namaBahan) && StrLess(b.namaBahan, c.namaBahan) {
        StrLessTransitive(a.namaBahan, b.namaBahan, c.namaBahan);
        StrLessAsymmetric(a.namaBahan, c.namaBahan);
      }
    }
  }

  /** Every ingredient appears once with its stock and unit, by name
      ascending; ingredients that share a name may appear in either order. */
  lemma StockReportEffect(bs: seq<BahanBaku>)
    ensures var r := StockReport(bs);
      && (forall i, j :: 0 <= i < j < |r| ==> !StrLess(r[j].namaBahan, r[i].namaBahan))
      && multiset(r) == multiset(StockRows(bs))
      && |r| == |bs|
      && (forall i :: 0 <= i < |bs| ==> StockRow(bs[i].namaBahan, bs[i].stock, bs[i].satuan) in r)
  {
    var r := StockReport(bs);
    NameAtMostIsTotal();
    SortOrdered(NameAtMost, AnyStockRow, StockRows(bs));
    assert |r| == |StockRows(bs)| by {
      assert |multiset(r)| == |multiset(StockRows(bs))|;
    }
    forall i | 0 <= i < |bs| ensures StockOf(bs[i]) in r {
      assert StockRows(bs)[i] == StockOf(bs[i]);
      assert StockOf(bs[i]) in multiset(StockRows(bs));
    }
  }

  // ------------------------------------------------------- JOIN karyawan

  /** The row's `karyawan_id` is not NULL and names an employee. */
  predicate Known(ks: map<string, Karyawan>, id: Option<string>)
  {
    id.Some? && id.value in ks
  }

  /** `FROM rows JOIN karyawan k ON rows.karyawan_id = k.karyawan_id`, keeping
      `k.employee_name` beside each row: rows whose employee is NULL or not
      in the table are dropped. */
  function Join<V>(ks: map<string, Karyawan>, rows: seq<V>, idOf: V -> Option<string>): seq<(string, V)>
  {
    if rows == [] then []
    else
      (if Known(ks, idOf(rows[0])) then [(ks[idOf(rows[0]).value].employeeName, rows[0])] else [])
      + Join(ks, rows[1..], idOf)
  }

  function EmployeeName<V>(p: (string, V)): string
  {
    p.0
  }

  /** A row is in the join, beside its employee's name, exactly when it
      names a known employee. */
  lemma {:induction false} JoinMembers<V>(ks: map<string, Karyawan>, rows: seq<V>, idOf: V -> Option<string>)
    ensures forall n, v :: (n, v) in Join(ks, rows, idOf) <==>
              v in rows && Known(ks, idOf(v)) && n == ks[idOf(v).value].employeeName
  {
    if rows != [] {
      JoinMembers(ks, rows[1..], idOf);
      assert rows == [rows[0]] + rows[1..];
    }
  }

  /** The joined rows of one employee name, peeled one table row at a time. */
  lemma SelectJoinCons<V>(ks: map<string, Karyawan>, rows: seq<V>, idOf: V -> Option<string>, n: string)
    requires rows != []
    ensures Select(EmployeeName, Join(ks, rows, idOf), n)
            == (if Known(ks, idOf(rows[0])) && ks[idOf(rows[0]).value].employeeName == n
                then [(n, rows[0])] else [])
               + Select(EmployeeName, Join(ks, rows[1..], idOf), n)
  {
    var j := Join(ks, rows, idOf);
    var j' := Join(ks, rows[1..], idOf);
    if Known(ks, idOf(rows[0])) {
      var p := (ks[idOf(rows[0]).value].employeeName, rows[0]);
      assert j == [p] + j';
      assert j[0] == p && j[1..] == j';
    } else {
      assert j == j';
    }
  }

  /** Reordering the rows of a list keeps its set of keys. */
  lemma KeysOfPermutation<K, A>(a: seq<Group<K, A>>, b: seq<Group<K, A>>)
    requires multiset(a) == multiset(b)
    ensures KeysOf(a) == KeysOf(b)
  {
    forall x | x in KeysOf(a) ensures x in KeysOf(b) {
      var i :| 0 <= i < |a| && a[i].key == x;
      var j := IndexOf(b, a[i]);
    }
    forall x | x in KeysOf(b) ensures x in KeysOf(a) {
      var i :| 0 <= i < |b| && b[i].key == x;
      var j := IndexOf(a, b[i]);
    }
  }

  // -------------------------------------------------- feedback_per_karyawan

  /** What `AVG(f.rating)` is computed from: how many ratings and their sum. */
  datatype Ratings = Ratings(count: int, total: int)

  function AddRating(acc: Ratings, p: (string, Feedback)): Ratings
  {
    Ratings(acc.count + 1, acc.total + p.1.rating)
  }

  function FeedbackEmployee(f: Feedback): Option<string>
  {
    f.karyawanId
  }

  /** The feedback rows whose employee exists, one group per employee name
      in name order, each holding the count and sum of its ratings (the
      report before it is ordered by average). */
  function FeedbackGroups(ks: map<string, Karyawan>, fs: seq<Feedback>): seq<Group<string, Ratings>>
  {
    GroupBy(StrLess, EmployeeName, AddRating, Ratings(0, 0), Join(ks, fs, FeedbackEmployee))
  }

  /** `a`'s average is at least `b`'s, compared without division:
      total_a / count_a >= total_b / count_b for positive counts. */
  predicate AverageAtLeast(a: Group<string, Ratings>, b: Group<string, Ratings>)
  {
    a.acc.total * b.acc.count >= b.acc.total * a.acc.count
  }

  /** `... ORDER BY rata_rata_rating DESC`. */
  function FeedbackReport(ks: map<string, Karyawan>, fs: seq<Feedback>): seq<Group<string, Ratings>>
  {
    Sort(AverageAtLeast, FeedbackGroups(ks, fs))
  }

  /** Reference: how many feedback rows name a known employee called `n`. */
  function RatingCount(ks: map<string, Karyawan>, fs: seq<Feedback>, n: string): nat
  {
    if fs == [] then 0
    else (if Known(ks, fs[0].karyawanId) && ks[fs[0].karyawanId.value].employeeName == n then 1 else 0)
         + RatingCount(ks, fs[1..], n)
  }

  /** Reference: the sum of those rows' ratings. */
  function RatingSum(ks: map<string, Karyawan>, fs: seq<Feedback>, n: string): int
  {
    if fs == [] then 0
    else (if Known(ks, fs[0].karyawanId) && ks[fs[0].karyawanId.value].employeeName == n then fs[0].rating else 0)
         + RatingSum(ks, fs[1..], n)
  }

  lemma {:induction false} FoldRatings(ks: map<string, Karyawan>, fs: seq<Feedback>, n: string)
    ensures Fold(AddRating, Ratings(0, 0), Select(EmployeeName, Join(ks, fs, FeedbackEmployee), n))
            == Ratings(RatingCount(ks, fs, n), RatingSum(ks, fs, n))
  {
    if fs != [] {
      FoldRatings(ks, fs[1..], n);
      SelectJoinCons(ks, fs, FeedbackEmployee, n);
      var s := Select(EmployeeName, Join(ks, fs[1..], FeedbackEmployee), n);
      if Known(ks, fs[0].karyawanId) && ks[fs[0].karyawanId.value].employeeName == n {
        FoldCons(AddRating, Ratings(0, 0), (n, fs[0]), s);
      } else {
        assert Select(EmployeeName, Join(ks, fs, FeedbackEmployee), n) == s;
      }
    }
  }

  lemma {:induction false} RatingCountLength(s: seq<(string, Feedback)>)
    ensures Fold(AddRating, Ratings(0, 0), s).count == |s|
  {
    if s != [] {
      RatingCountLength(s[1..]);
    }
  }

  /** Multiplying by a non-negative factor keeps `<=`. */
  lemma MulMonotone(x: int, y: int, k: int)
    requires k >= 0 && x <= y
    ensures x * k <= y * k
  {
    assert y * k - x * k == (y - x) * k;
  }

  /** A positive factor can be cancelled from both sides of `<=`. */
  lemma MulCancel(x: int, y: int, k: int)
    requires k > 0 && x * k <= y * k
    ensures x <= y
  {
    assert (y - x) * k == y * k - x * k;
  }

  /** total_a / count_a >= total_b / count_b >= total_c / count_c, all
      counts positive, gives total_a / count_a >= total_c / count_c. */
  lemma CrossTransitive(ta: int, ca: int, tb: int, cb: int, tc: int, cc: int)
    requires ca > 0 && cb > 0 && cc > 0
    requires ta * cb >= tb * ca && tb * cc >= tc * cb
    ensures ta * cc >= tc * ca
  {
    MulMonotone(tb * ca, ta * cb, cc);
    MulMonotone(tc * cb, tb * cc, ca);
    assert tb * ca * cc == tb * cc * ca;
    assert (tc * ca) * cb == tc * cb * ca && (ta * cc) * cb == ta * cb * cc;
    MulCancel(tc * ca, ta * cc, cb);
  }

  predicate Rated(g: Group<string, Ratings>)
  {
    g.acc.count > 0
  }

  /** Among groups with at least one rating, comparing averages is a total
      preorder. */
  lemma AverageOrderIsTotal()
    ensures TotalPreorderOn(AverageAtLeast, Rated)
  {
    forall a, b, c | Rated(a) && Rated(b) && Rated(c) && AverageAtLeast(a, b) && AverageAtLeast(b, c)
      ensures AverageAtLeast(a, c)
    {
      CrossTransitive(a.acc.total, a.acc.count, b.acc.total, b.acc.count, c.acc.total, c.acc.count);
    }
  }

  /** One row per employee name with a rating, highest average first, each
      holding the number and the sum of that employee name's ratings. */
  /** Before the ORDER BY: one group per employee name with a rating, in
      name order, each holding the number and the sum of that name's ratings. */
  lemma FeedbackGroupsEffect(ks: map<string, Karyawan>, fs: seq<Feedback>)
    ensures var gs := FeedbackGroups(ks, fs);
      && Sorted(StrLess, gs)
      && (forall i :: 0 <= i < |gs| ==>
            gs[i].acc == Ratings(RatingCount(ks, fs, gs[i].key), RatingSum(ks, fs, gs[i].key)) && gs[i].acc.count > 0)
      && (forall n :: n in KeysOf(gs) <==> RatingCount(ks, fs, n) > 0)
  {
    var gs := FeedbackGroups(ks, fs);
    var j := Join(ks, fs, FeedbackEmployee);
    StrLessIsStrictTotal();
    GroupByEffect(StrLess, EmployeeName, AddRating, Ratings(0, 0), j);
    GroupRows(StrLess, EmployeeName, AddRating, Ratings(0, 0), j);
    forall i | 0 <= i < |gs|
      ensures gs[i].acc == Ratings(RatingCount(ks, fs, gs[i].key), RatingSum(ks, fs, gs[i].key))
      ensures gs[i].acc.count > 0
    {
      FoldRatings(ks, fs, gs[i].key);
      RatingCountLength(Select(EmployeeName, j, gs[i].key));
    }
    forall n ensures n in KeysOf(gs) <==> RatingCount(ks, fs, n) > 0 {
      LookupNone(gs, n);
      FoldRatings(ks, fs, n);
      RatingCountLength(Select(EmployeeName, j, n));
    }
  }

  /** One row per employee name with a rating, highest average first, each
      holding the number and the sum of that employee name's ratings. */
  lemma FeedbackReportEffect(ks: map<string, Karyawan>, fs: seq<Feedback>)
    ensures var r := FeedbackReport(ks, fs);
      && (forall i, j :: 0 <= i < j < |r| ==>
            r[i].acc.total * r[j].acc.count >= r[j].acc.total * r[i].acc.count)
      && (forall i, j :: 0 <= i < j < |r| ==> r[i].key != r[j].key)
      && (forall i :: 0 <= i < |r| ==>
            r[i].acc == Ratings(RatingCount(ks, fs, r[i].key), RatingSum(ks, fs, r[i].key)) && r[i].acc.count > 0)
      && (forall n :: n in KeysOf(r) <==> RatingCount(ks, fs, n) > 0)
  {
    var gs := FeedbackGroups(ks, fs);
    var r := FeedbackReport(ks, fs);
    FeedbackGroupsEffect(ks, fs);
    assert AllOk(Rated, gs);
    AverageOrderIsTotal();
    SortOrdered(AverageAtLeast, Rated, gs);
    forall i, j | 0 <= i < j < |gs| ensures GroupKey(gs[i]) != GroupKey(gs[j]) {
      StrLessIrreflexive(gs[i].key);
    }
    SortDistinct(AverageAtLeast, GroupKey, gs);
    forall i | 0 <= i < |r|
      ensures r[i].acc == Ratings(RatingCount(ks, fs, r[i].key), RatingSum(ks, fs, r[i].key))
      ensures r[i].acc.count > 0
    {
      var m := IndexOf(gs, r[i]);
    }
    KeysOfPermutation(r, gs);
  }

  function GroupKey<K, A>(g: Group<K, A>): K
  {
    g.key
  }

  // -------------------------------------------------- absensi_per_karyawan

  /** `COUNT(a.absensi_id)` and the four `SUM(CASE WHEN a.status = ...)`. */
  datatype Tally = Tally(total: int, hadir: int, tidakHadir: int, izin: int, cuti: int)

  function Mark(status: string, s: string): int
  {
    if status == s then 1 else 0
  }

  function AddAttendance(acc: Tally, p: (string, Absensi)): Tally
  {
    var s := p.1.status;
    Tally(acc.total + 1, acc.hadir + Mark(s, "Hadir"), acc.tidakHadir + Mark(s, "Tidak Hadir"),
          acc.izin + Mark(s, "Izin"), acc.cuti + Mark(s, "Cuti"))
  }

  function AttendanceEmployee(a: Absensi): Option<string>
  {
    a.karyawanId
  }

  /** The attendance rows whose employee exists, one row per employee name
      in name order, counting all days and the days of each of the four
      statuses. */
  function AttendanceReport(ks: map<string, Karyawan>, ar: seq<Absensi>): seq<Group<string, Tally>>
  {
    GroupBy(StrLess, EmployeeName, AddAttendance, Tally(0, 0, 0, 0, 0), Join(ks, ar, AttendanceEmployee))
  }

  /** Reference: how many attendance rows name a known employee called `n`
      and, when `status` is given, carry that status. */
  function Attendance(ks: map<string, Karyawan>, ar: seq<Absensi>, n: string, status: Option<string>): nat
  {
    if ar == [] then 0
    else (if Known(ks, ar[0].karyawanId) && ks[ar[0].karyawanId.value].employeeName == n
             && (status.None? || ar[0].status == status.value) then 1 else 0)
         + Attendance(ks, ar[1..], n, status)
  }

  /** The four statuses the attendance form offers. */
  predicate FormStatus(s: string)
  {
    s == "Hadir" || s == "Tidak Hadir" || s == "Izin" || s == "Cuti"
  }

  function TallyOf(ks: map<string, Karyawan>, ar: seq<Absensi>, n: string): Tally
  {
    Tally(Attendance(ks, ar, n, None), Attendance(ks, ar, n, Some("Hadir")),
          Attendance(ks, ar, n, Some("Tidak Hadir")), Attendance(ks, ar, n, Some("Izin")),
          Attendance(ks, ar, n, Some("Cuti")))
  }

  lemma {:induction false} FoldAttendance(ks: map<string, Karyawan>, ar: seq<Absensi>, n: string)
    ensures Fold(AddAttendance, Tally(0, 0, 0, 0, 0), Select(EmployeeName, Join(ks, ar, AttendanceEmployee), n))
            == TallyOf(ks, ar, n)
  {
    if ar != [] {
      FoldAttendance(ks, ar[1..], n);
      SelectJoinCons(ks, ar, AttendanceEmployee, n);
      var s := Select(EmployeeName, Join(ks, ar[1..], AttendanceEmployee), n);
      if Known(ks, ar[0].karyawanId) && ks[ar[0].karyawanId.value].employeeName == n {
        FoldCons(AddAttendance, Tally(0, 0, 0, 0, 0), (n, ar[0]), s);
      } else {
        assert Select(EmployeeName, Join(ks, ar, AttendanceEmployee), n) == s;
      }
    }
  }

  lemma {:induction false} AttendanceTotalLength(s: seq<(string, Absensi)>)
    ensures Fold(AddAttendance, Tally(0, 0, 0, 0, 0), s).total == |s|
  {
    if s != [] {
      AttendanceTotalLength(s[1..]);
    }
  }

  /** One row per employee name with attendance, names ascending, each
      holding that name's count of rows and of each status. */
  lemma AttendanceReportEffect(ks: map<string, Karyawan>, ar: seq<Absensi>)
    ensures var r := AttendanceReport(ks, ar);
      && (forall i, j :: 0 <= i < j < |r| ==> StrLess(r[i].key, r[j].key))
      && (forall i :: 0 <= i < |r| ==> r[i].acc == TallyOf(ks, ar, r[i].key) && r[i].acc.total > 0)
      && (forall n :: n in KeysOf(r) <==> Attendance(ks, ar, n, None) > 0)
  {
    var r := AttendanceReport(ks, ar);
    var j := Join(ks, ar, AttendanceEmployee);
    StrLessIsStrictTotal();
    GroupByEffect(StrLess, EmployeeName, AddAttendance, Tally(0, 0, 0, 0, 0), j);
    GroupRows(StrLess, EmployeeName, AddAttendance, Tally(0, 0, 0, 0, 0), j);
    forall i | 0 <= i < |r| ensures r[i].acc == TallyOf(ks, ar, r[i].key) && r[i].acc.total > 0 {
      FoldAttendance(ks, ar, r[i].key);
      AttendanceTotalLength(Select(EmployeeName, j, r[i].key));
    }
    forall n ensures n in KeysOf(r) <==> Attendance(ks, ar, n, None) > 0 {
      LookupNone(r, n);
      FoldAttendance(ks, ar, n);
      AttendanceTotalLength(Select(EmployeeName, j, n));
    }
  }

  /** When every status is one the form offers, the four status counts of
      an employee name add up to its total. */
  lemma {:induction false} StatusesPartition(ks: map<string, Karyawan>, ar: seq<Absensi>, n: string)
    requires forall i :: 0 <= i < |ar| ==> FormStatus(ar[i].status)
    ensures Attendance(ks, ar, n, Some("Hadir")) + Attendance(ks, ar, n, Some("Tidak Hadir"))
            + Attendance(ks, ar, n, Some("Izin")) + Attendance(ks, ar, n, Some("Cuti"))
            == Attendance(ks, ar, n, None)
  {
    if ar != [] {
      assert FormStatus(ar[0].status);
      StatusesPartition(ks, ar[1..], n);
    }
  }

  lemma AttendanceAddsUp(ks: map<string, Karyawan>, ar: seq<Absensi>)
    requires forall i :: 0 <= i < |ar| ==> FormStatus(ar[i].status)
    ensures var r := AttendanceReport(ks, ar);
      forall i :: 0 <= i < |r| ==> r[i].acc.hadir + r[i].acc.tidakHadir + r[i].acc.izin + r[i].acc.cuti == r[i].acc.total
  {
    var r := AttendanceReport(ks, ar);
    AttendanceReportEffect(ks, ar);
    forall i | 0 <= i < |r|
      ensures r[i].acc.hadir + r[i].acc.tidakHadir + r[i].acc.izin + r[i].acc.cuti == r[i].acc.total
    {
      StatusesPartition(ks, ar, r[i].key);
    }
  }
}
