/** The eight tables' rows, and for each the argument list of its
    `perbarui_*` function (column order and test), the meaning of one
    `col = %s` clause, and the row a partial update is meant to produce.
    A column is `Option` exactly where the table allows NULL. */
module Entities {
  import opened Values
  import opened PartialUpdate

  // -------------------------------------------------------------- karyawan

  /** A row of `karyawan`, keyed by `karyawan_id`. */
  datatype Karyawan = Karyawan(employeeName: string, position: string, fingerprintId: Option<string>)

  /** The optional arguments of `perbarui_karyawan`, in the order it tests them. */
  function KaryawanChanges(employeeName: Option<string>, position: Option<string>, fingerprintId: Option<string>): seq<Candidate>
  {
    [ Candidate("employee_name", TextArg(employeeName), IfTruthy),
      Candidate("position", TextArg(position), IfTruthy),
      Candidate("fingerprint_id", TextArg(fingerprintId), IfNotNone) ]
  }

  /** One `col = %s` clause on a `karyawan` row; `None` is a clause the database would reject. */
  function SetKaryawan(r: Karyawan, column: string, v: Value): Option<Karyawan>
  {
    match v
    case Text(s) =>
      if column == "employee_name" then Some(r.(employeeName := s))
      else if column == "position" then Some(r.(position := s))
      else if column == "fingerprint_id" then Some(r.(fingerprintId := Some(s)))
      else None
    case _ => None
  }

  /** The intended partial update: a column is overwritten exactly when its
      argument passes its test, and keeps its old value otherwise. */
  function PatchKaryawan(r: Karyawan, employeeName: Option<string>, position: Option<string>, fingerprintId: Option<string>): Karyawan
  {
    Karyawan(
      if NonEmpty(employeeName) then employeeName.value else r.employeeName,
      if NonEmpty(position) then position.value else r.position,
      if fingerprintId.Some? then fingerprintId else r.fingerprintId)
  }

  /** `perbarui_karyawan` sets a column exactly when its argument passes its
      test, and has nothing to update exactly when none does. */
  lemma KaryawanFields(employeeName: Option<string>, position: Option<string>, fingerprintId: Option<string>)
    ensures var fields := Fields(KaryawanChanges(employeeName, position, fingerprintId));
      && ("employee_name" in fields <==> NonEmpty(employeeName))
      && ("position" in fields <==> NonEmpty(position))
      && ("fingerprint_id" in fields <==> fingerprintId.Some?)
      && (fields == [] <==> !NonEmpty(employeeName) && !NonEmpty(position) && fingerprintId.None?)
  {
    var cs := KaryawanChanges(employeeName, position, fingerprintId);
    ColumnSupplied(cs, 0);
    ColumnSupplied(cs, 1);
    ColumnSupplied(cs, 2);
    NothingSupplied(cs);
  }

  /** Running the clauses `perbarui_karyawan` builds on a row gives the intended row. */
  lemma KaryawanApplied(r: Karyawan, employeeName: Option<string>, position: Option<string>, fingerprintId: Option<string>)
    ensures Apply(SetKaryawan, r, KaryawanChanges(employeeName, position, fingerprintId)) == Some(PatchKaryawan(r, employeeName, position, fingerprintId))
  {
    var cs := KaryawanChanges(employeeName, position, fingerprintId);
    var p := PatchKaryawan(r, employeeName, position, fingerprintId);
    var r1 := r.(employeeName := p.employeeName);
    var r2 := r1.(position := p.position);
    assert Apply(SetKaryawan, r2, cs[2..]) == Some(p);
    assert Apply(SetKaryawan, r1, cs[1..]) == Some(p);
  }

  // ------------------------------------------------------------- pelanggan

  /** A row of `pelanggan`, keyed by `pelanggan_id`. */
  datatype Pelanggan = Pelanggan(cusName: string, contactInfo: string)

  /** The optional arguments of `perbarui_pelanggan`, in the order it tests them. */
  function PelangganChanges(cusName: Option<string>, contactInfo: Option<string>): seq<Candidate>
  {
    [ Candidate("cus_name", TextArg(cusName), IfTruthy),
      Candidate("contact_info", TextArg(contactInfo), IfTruthy) ]
  }

  /** One `col = %s` clause on a `pelanggan` row; `None` is a clause the database would reject. */
  function SetPelanggan(r: Pelanggan, column: string, v: Value): Option<Pelanggan>
  {
    match v
    case Text(s) =>
      if column == "cus_name" then Some(r.(cusName := s))
      else if column == "contact_info" then Some(r.(contactInfo := s))
      else None
    case _ => None
  }

  /** The intended partial update: a column is overwritten exactly when its
      argument passes its test, and keeps its old value otherwise. */
  function PatchPelanggan(r: Pelanggan, cusName: Option<string>, contactInfo: Option<string>): Pelanggan
  {
    Pelanggan(
      if NonEmpty(cusName) then cusName.value else r.cusName,
      if NonEmpty(contactInfo) then contactInfo.value else r.contactInfo)
  }

  /** `perbarui_pelanggan` sets a column exactly when its argument passes its
      test, and has nothing to update exactly when none does. */
  lemma PelangganFields(cusName: Option<string>, contactInfo: Option<string>)
    ensures var fields := Fields(PelangganChanges(cusName, contactInfo));
      && ("cus_name" in fields <==> NonEmpty(cusName))
      && ("contact_info" in fields <==> NonEmpty(contactInfo))
      && (fields == [] <==> !NonEmpty(cusName) && !NonEmpty(contactInfo))
  {
    var cs := PelangganChanges(cusName, contactInfo);
    ColumnSupplied(cs, 0);
    ColumnSupplied(cs, 1);
    NothingSupplied(cs);
  }

  /** Running the clauses `perbarui_pelanggan` builds on a row gives the intended row. */
  lemma PelangganApplied(r: Pelanggan, cusName: Option<string>, contactInfo: Option<string>)
    ensures Apply(SetPelanggan, r, PelangganChanges(cusName, contactInfo)) == Some(PatchPelanggan(r, cusName, contactInfo))
  {
    var cs := PelangganChanges(cusName, contactInfo);
    var p := PatchPelanggan(r, cusName, contactInfo);
    var r1 := r.(cusName := p.cusName);
    assert Apply(SetPelanggan, r1, cs[1..]) == Some(p);
  }

  // -------------------------------------------------------------- supplier

  /** A row of `supplier`, keyed by `supplier_id`. */
  datatype Supplier = Supplier(supplierName: string, address: string)

  /** The optional arguments of `perbarui_supplier`, in the order it tests them. */
  function SupplierChanges(supplierName: Option<string>, address: Option<string>): seq<Candidate>
  {
    [ Candidate("supplier_name", TextArg(supplierName), IfTruthy),
      Candidate("address", TextArg(address), IfTruthy) ]
  }

  /** One `col = %s` clause on a `supplier` row; `None` is a clause the database would reject. */
  function SetSupplier(r: Supplier, column: string, v: Value): Option<Supplier>
  {
    match v
    case Text(s) =>
      if column == "supplier_name" then Some(r.(supplierName := s))
      else if column == "address" then Some(r.(address := s))
      else None
    case _ => None
  }

  /** The intended partial update: a column is overwritten exactly when its
      argument passes its test, and keeps its old value otherwise. */
  function PatchSupplier(r: Supplier, supplierName: Option<string>, address: Option<string>): Supplier
  {
    Supplier(
      if NonEmpty(supplierName) then supplierName.value else r.supplierName,
      if NonEmpty(address) then address.value else r.address)
  }

  /** `perbarui_supplier` sets a column exactly when its argument passes its
      test, and has nothing to update exactly when none does. */
  lemma SupplierFields(supplierName: Option<string>, address: Option<string>)
    ensures var fields := Fields(SupplierChanges(supplierName, address));
      && ("supplier_name" in fields <==> NonEmpty(supplierName))
      && ("address" in fields <==> NonEmpty(address))
      && (fields == [] <==> !NonEmpty(supplierName) && !NonEmpty(address))
  {
    var cs := SupplierChanges(supplierName, address);
    ColumnSupplied(cs, 0);
    ColumnSupplied(cs, 1);
    NothingSupplied(cs);
  }

  /** Running the clauses `perbarui_supplier` builds on a row gives the intended row. */
  lemma SupplierApplied(r: Supplier, supplierName: Option<string>, address: Option<string>)
    ensures Apply(SetSupplier, r, SupplierChanges(supplierName, address)) == Some(PatchSupplier(r, supplierName, address))
  {
    var cs := SupplierChanges(supplierName, address);
    var p := PatchSupplier(r, supplierName, address);
    var r1 := r.(supplierName := p.supplierName);
    assert Apply(SetSupplier, r1, cs[1..]) == Some(p);
  }

  // ------------------------------------------------------------ bahan_baku

  /** A row of `bahan_baku`, keyed by `bahan_id`. `supplierId` refers to `supplier`. */
  datatype BahanBaku = BahanBaku(namaBahan: string, stock: int, satuan: string, hargaBahan: int, supplierId: Option<string>)

  /** The optional arguments of `perbarui_bahan_baku`, in the order it tests them. */
  function BahanBakuChanges(namaBahan: Option<string>, stock: Option<int>, satuan: Option<string>, hargaBahan: Option<int>, supplierId: Option<string>): seq<Candidate>
  {
    [ Candidate("nama_bahan", TextArg(namaBahan), IfTruthy),
      Candidate("stock", IntArg(stock), IfNotNone),
      Candidate("satuan", TextArg(satuan), IfTruthy),
      Candidate("harga_bahan", IntArg(hargaBahan), IfNotNone),
      Candidate("supplier_id", TextArg(supplierId), IfTruthy) ]
  }

  /** One `col = %s` clause on a `bahan_baku` row; `None` is a clause the database would reject. */
  function SetBahanBaku(r: BahanBaku, column: string, v: Value): Option<BahanBaku>
  {
    match v
    case Text(s) =>
      if column == "nama_bahan" then Some(r.(namaBahan := s))
      else if column == "satuan" then Some(r.(satuan := s))
      else if column == "supplier_id" then Some(r.(supplierId := Some(s)))
      else None
    case Int(n) =>
      if column == "stock" then Some(r.(stock := n))
      else if column == "harga_bahan" then Some(r.(hargaBahan := n))
      else None
    case _ => None
  }

  /** The intended partial update: a column is overwritten exactly when its
      argument passes its test, and keeps its old value otherwise. */
  function PatchBahanBaku(r: BahanBaku, namaBahan: Option<string>, stock: Option<int>, satuan: Option<string>, hargaBahan: Option<int>, supplierId: Option<string>): BahanBaku
  {
    BahanBaku(
      if NonEmpty(namaBahan) then namaBahan.value else r.namaBahan,
      if stock.Some? then stock.value else r.stock,
      if NonEmpty(satuan) then satuan.value else r.satuan,
      if hargaBahan.Some? then hargaBahan.value else r.hargaBahan,
      if NonEmpty(supplierId) then supplierId else r.supplierId)
  }

  /** `perbarui_bahan_baku` sets a column exactly when its argument passes its
      test, and has nothing to update exactly when none does. */
  lemma BahanBakuFields(namaBahan: Option<string>, stock: Option<int>, satuan: Option<string>, hargaBahan: Option<int>, supplierId: Option<string>)
    ensures var fields := Fields(BahanBakuChanges(namaBahan, stock, satuan, hargaBahan, supplierId));
      && ("nama_bahan" in fields <==> NonEmpty(namaBahan))
      && ("stock" in fields <==> stock.Some?)
      && ("satuan" in fields <==> NonEmpty(satuan))
      && ("harga_bahan" in fields <==> hargaBahan.Some?)
      && ("supplier_id" in fields <==> NonEmpty(supplierId))
      && (fields == [] <==> !NonEmpty(namaBahan) && stock.None? && !NonEmpty(satuan) && hargaBahan.None? && !NonEmpty(supplierId))
  {
    var cs := BahanBakuChanges(namaBahan, stock, satuan, hargaBahan, supplierId);
    ColumnSupplied(cs, 0);
    ColumnSupplied(cs, 1);
    ColumnSupplied(cs, 2);
    ColumnSupplied(cs, 3);
    ColumnSupplied(cs, 4);
    NothingSupplied(cs);
  }

  /** Running the clauses `perbarui_bahan_baku` builds on a row gives the intended row. */
  lemma BahanBakuApplied(r: BahanBaku, namaBahan: Option<string>, stock: Option<int>, satuan: Option<string>, hargaBahan: Option<int>, supplierId: Option<string>)
    ensures Apply(SetBahanBaku, r, BahanBakuChanges(namaBahan, stock, satuan, hargaBahan, supplierId)) == Some(PatchBahanBaku(r, namaBahan, stock, satuan, hargaBahan, supplierId))
  {
    var cs := BahanBakuChanges(namaBahan, stock, satuan, hargaBahan, supplierId);
    var p := PatchBahanBaku(r, namaBahan, stock, satuan, hargaBahan, supplierId);
    var r1 := r.(namaBahan := p.namaBahan);
    var r2 := r1.(stock := p.stock);
    var r3 := r2.(satuan := p.satuan);
    var r4 := r3.(hargaBahan := p.hargaBahan);
    assert Apply(SetBahanBaku, r4, cs[4..]) == Some(p);
    assert Apply(SetBahanBaku, r3, cs[3..]) == Some(p);
    assert Apply(SetBahanBaku, r2, cs[2..]) == Some(p);
    assert Apply(SetBahanBaku, r1, cs[1..]) == Some(p);
  }

  // ------------------------------------------------------------------ menu

  /** A row of `menu`, keyed by `menu_id`. */
  datatype Menu = Menu(namaMenu: string, harga: int)

  /** The optional arguments of `perbarui_menu`, in the order it tests them. */
  function MenuChanges(namaMenu: Option<string>, harga: Option<int>): seq<Candidate>
  {
    [ Candidate("nama_menu", TextArg(namaMenu), IfTruthy),
      Candidate("harga", IntArg(harga), IfNotNone) ]
  }

  /** One `col = %s` clause on a `menu` row; `None` is a clause the database would reject. */
  function SetMenu(r: Menu, column: string, v: Value): Option<Menu>
  {
    match v
    case Text(s) =>
      if column == "nama_menu" then Some(r.(namaMenu := s))
      else None
    case Int(n) =>
      if column == "harga" then Some(r.(harga := n))
      else None
    case _ => None
  }

  /** The intended partial update: a column is overwritten exactly when its
      argument passes its test, and keeps its old value otherwise. */
  function PatchMenu(r: Menu, namaMenu: Option<string>, harga: Option<int>): Menu
  {
    Menu(
      if NonEmpty(namaMenu) then namaMenu.value else r.namaMenu,
      if harga.Some? then harga.value else r.harga)
  }

  /** `perbarui_menu` sets a column exactly when its argument passes its
      test, and has nothing to update exactly when none does. */
  lemma MenuFields(namaMenu: Option<string>, harga: Option<int>)
    ensures var fields := Fields(MenuChanges(namaMenu, harga));
      && ("nama_menu" in fields <==> NonEmpty(namaMenu))
      && ("harga" in fields <==> harga.Some?)
      && (fields == [] <==> !NonEmpty(namaMenu) && harga.None?)
  {
    var cs := MenuChanges(namaMenu, harga);
    ColumnSupplied(cs, 0);
    ColumnSupplied(cs, 1);
    NothingSupplied(cs);
  }

  /** Running the clauses `perbarui_menu` builds on a row gives the intended row. */
  lemma MenuApplied(r: Menu, namaMenu: Option<string>, harga: Option<int>)
    ensures Apply(SetMenu, r, MenuChanges(namaMenu, harga)) == Some(PatchMenu(r, namaMenu, harga))
  {
    var cs := MenuChanges(namaMenu, harga);
    var p := PatchMenu(r, namaMenu, harga);
    var r1 := r.(namaMenu := p.namaMenu);
    assert Apply(SetMenu, r1, cs[1..]) == Some(p);
  }

  // ------------------------------------------------------------- transaksi

  /** A row of `transaksi`, keyed by `transaksi_id`. `pelangganId` and `karyawanId` refer to `pelanggan` and `karyawan`. */
  datatype Transaksi = Transaksi(tanggalPembelian: Date, pelangganId: Option<string>, karyawanId: Option<string>, totalTransaksi: int)

  /** The optional arguments of `perbarui_transaksi`, in the order it tests them. */
  function TransaksiChanges(tanggalPembelian: Option<Date>, pelangganId: Option<string>, karyawanId: Option<string>, totalTransaksi: Option<int>): seq<Candidate>
  {
    [ Candidate("tanggal_pembelian", DayArg(tanggalPembelian), IfTruthy),
      Candidate("pelanggan_id", TextArg(pelangganId), IfTruthy),
      Candidate("karyawan_id", TextArg(karyawanId), IfTruthy),
      Candidate("total_transaksi", IntArg(totalTransaksi), IfNotNone) ]
  }

  /** One `col = %s` clause on a `transaksi` row; `None` is a clause the database would reject. */
  function SetTransaksi(r: Transaksi, column: string, v: Value): Option<Transaksi>
  {
    match v
    case Text(s) =>
      if column == "pelanggan_id" then Some(r.(pelangganId := Some(s)))
      else if column == "karyawan_id" then Some(r.(karyawanId := Some(s)))
      else None
    case Int(n) =>
      if column == "total_transaksi" then Some(r.(totalTransaksi := n))
      else None
    case Day(d) =>
      if column == "tanggal_pembelian" then Some(r.(tanggalPembelian := d))
      else None
  }

  /** The intended partial update: a column is overwritten exactly when its
      argument passes its test, and keeps its old value otherwise. */
  function PatchTransaksi(r: Transaksi, tanggalPembelian: Option<Date>, pelangganId: Option<string>, karyawanId: Option<string>, totalTransaksi: Option<int>): Transaksi
  {
    Transaksi(
      if tanggalPembelian.Some? then tanggalPembelian.value else r.tanggalPembelian,
      if NonEmpty(pelangganId) then pelangganId else r.pelangganId,
      if NonEmpty(karyawanId) then karyawanId else r.karyawanId,
      if totalTransaksi.Some? then totalTransaksi.value else r.totalTransaksi)
  }

  /** `perbarui_transaksi` sets a column exactly when its argument passes its
      test, and has nothing to update exactly when none does. */
  lemma TransaksiFields(tanggalPembelian: Option<Date>, pelangganId: Option<string>, karyawanId: Option<string>, totalTransaksi: Option<int>)
    ensures var fields := Fields(TransaksiChanges(tanggalPembelian, pelangganId, karyawanId, totalTransaksi));
      && ("tanggal_pembelian" in fields <==> tanggalPembelian.Some?)
      && ("pelanggan_id" in fields <==> NonEmpty(pelangganId))
      && ("karyawan_id" in fields <==> NonEmpty(karyawanId))
      && ("total_transaksi" in fields <==> totalTransaksi.Some?)
      && (fields == [] <==> tanggalPembelian.None? && !NonEmpty(pelangganId) && !NonEmpty(karyawanId) && totalTransaksi.None?)
  {
    var cs := TransaksiChanges(tanggalPembelian, pelangganId, karyawanId, totalTransaksi);
    ColumnSupplied(cs, 0);
    ColumnSupplied(cs, 1);
    ColumnSupplied(cs, 2);
    ColumnSupplied(cs, 3);
    NothingSupplied(cs);
  }

  /** Running the clauses `perbarui_transaksi` builds on a row gives the intended row. */
  lemma TransaksiApplied(r: Transaksi, tanggalPembelian: Option<Date>, pelangganId: Option<string>, karyawanId: Option<string>, totalTransaksi: Option<int>)
    ensures Apply(SetTransaksi, r, TransaksiChanges(tanggalPembelian, pelangganId, karyawanId, totalTransaksi)) == Some(PatchTransaksi(r, tanggalPembelian, pelangganId, karyawanId, totalTransaksi))
  {
    var cs := TransaksiChanges(tanggalPembelian, pelangganId, karyawanId, totalTransaksi);
    var p := PatchTransaksi(r, tanggalPembelian, pelangganId, karyawanId, totalTransaksi);
    var r1 := r.(tanggalPembelian := p.tanggalPembelian);
    var r2 := r1.(pelangganId := p.pelangganId);
    var r3 := r2.(karyawanId := p.karyawanId);
    assert Apply(SetTransaksi, r3, cs[3..]) == Some(p);
    assert Apply(SetTransaksi, r2, cs[2..]) == Some(p);
    assert Apply(SetTransaksi, r1, cs[1..]) == Some(p);
  }

  // -------------------------------------------------------------- feedback

  /** A row of `feedback`, keyed by `feedback_id`. `pelangganId` and `karyawanId` refer to `pelanggan` and `karyawan`. */
  datatype Feedback = Feedback(pelangganId: Option<string>, karyawanId: Option<string>, tanggal: Date, rating: int, komentar: Option<string>)

  /** The optional arguments of `perbarui_feedback`, in the order it tests them. */
  function FeedbackChanges(pelangganId: Option<string>, karyawanId: Option<string>, tanggal: Option<Date>, rating: Option<int>, komentar: Option<string>): seq<Candidate>
  {
    [ Candidate("pelanggan_id", TextArg(pelangganId), IfTruthy),
      Candidate("karyawan_id", TextArg(karyawanId), IfTruthy),
      Candidate("tanggal", DayArg(tanggal), IfTruthy),
      Candidate("rating", IntArg(rating), IfNotNone),
      Candidate("komentar", TextArg(komentar), IfTruthy) ]
  }

  /** One `col = %s` clause on a `feedback` row; `None` is a clause the database would reject. */
  function SetFeedback(r: Feedback, column: string, v: Value): Option<Feedback>
  {
    match v
    case Text(s) =>
      if column == "pelanggan_id" then Some(r.(pelangganId := Some(s)))
      else if column == "karyawan_id" then Some(r.(karyawanId := Some(s)))
      else if column == "komentar" then Some(r.(komentar := Some(s)))
      else None
    case Int(n) =>
      if column == "rating" then Some(r.(rating := n))
      else None
    case Day(d) =>
      if column == "tanggal" then Some(r.(tanggal := d))
      else None
  }

  /** The intended partial update: a column is overwritten exactly when its
      argument passes its test, and keeps its old value otherwise. */
  function PatchFeedback(r: Feedback, pelangganId: Option<string>, karyawanId: Option<string>, tanggal: Option<Date>, rating: Option<int>, komentar: Option<string>): Feedback
  {
    Feedback(
      if NonEmpty(pelangganId) then pelangganId else r.pelangganId,
      if NonEmpty(karyawanId) then karyawanId else r.karyawanId,
      if tanggal.Some? then tanggal.value else r.tanggal,
      if rating.Some? then rating.value else r.rating,
      if NonEmpty(komentar) then komentar else r.komentar)
  }

  /** `perbarui_feedback` sets a column exactly when its argument passes its
      test, and has nothing to update exactly when none does. */
  lemma FeedbackFields(pelangganId: Option<string>, karyawanId: Option<string>, tanggal: Option<Date>, rating: Option<int>, komentar: Option<string>)
    ensures var fields := Fields(FeedbackChanges(pelangganId, karyawanId, tanggal, rating, komentar));
      && ("pelanggan_id" in fields <==> NonEmpty(pelangganId))
      && ("karyawan_id" in fields <==> NonEmpty(karyawanId))
      && ("tanggal" in fields <==> tanggal.Some?)
      && ("rating" in fields <==> rating.Some?)
      && ("komentar" in fields <==> NonEmpty(komentar))
      && (fields == [] <==> !NonEmpty(pelangganId) && !NonEmpty(karyawanId) && tanggal.None? && rating.None? && !NonEmpty(komentar))
  {
    var cs := FeedbackChanges(pelangganId, karyawanId, tanggal, rating, komentar);
    ColumnSupplied(cs, 0);
    ColumnSupplied(cs, 1);
    ColumnSupplied(cs, 2);
    ColumnSupplied(cs, 3);
    ColumnSupplied(cs, 4);
    NothingSupplied(cs);
  }

  /** Running the clauses `perbarui_feedback` builds on a row gives the intended row. */
  lemma FeedbackApplied(r: Feedback, pelangganId: Option<string>, karyawanId: Option<string>, tanggal: Option<Date>, rating: Option<int>, komentar: Option<string>)
    ensures Apply(SetFeedback, r, FeedbackChanges(pelangganId, karyawanId, tanggal, rating, komentar)) == Some(PatchFeedback(r, pelangganId, karyawanId, tanggal, rating, komentar))
  {
    var cs := FeedbackChanges(pelangganId, karyawanId, tanggal, rating, komentar);
    var p := PatchFeedback(r, pelangganId, karyawanId, tanggal, rating, komentar);
    var r1 := r.(pelangganId := p.pelangganId);
    var r2 := r1.(karyawanId := p.karyawanId);
    var r3 := r2.(tanggal := p.tanggal);
    var r4 := r3.(rating := p.rating);
    assert Apply(SetFeedback, r4, cs[4..]) == Some(p);
    assert Apply(SetFeedback, r3, cs[3..]) == Some(p);
    assert Apply(SetFeedback, r2, cs[2..]) == Some(p);
    assert Apply(SetFeedback, r1, cs[1..]) == Some(p);
  }

  // --------------------------------------------------------------- absensi

  /** A row of `absensi`, keyed by `absensi_id`. `karyawanId` refers to `karyawan`. */
  datatype Absensi = Absensi(karyawanId: Option<string>, tanggal: Date, status: string)

  /** The optional arguments of `perbarui_absensi`, in the order it tests them. */
  function AbsensiChanges(karyawanId: Option<string>, tanggal: Option<Date>, status: Option<string>): seq<Candidate>
  {
    [ Candidate("karyawan_id", TextArg(karyawanId), IfTruthy),
      Candidate("tanggal", DayArg(tanggal), IfTruthy),
      Candidate("status", TextArg(status), IfTruthy) ]
  }

  /** One `col = %s` clause on a `absensi` row; `None` is a clause the database would reject. */
  function SetAbsensi(r: Absensi, column: string, v: Value): Option<Absensi>
  {
    match v
    case Text(s) =>
      if column == "karyawan_id" then Some(r.(karyawanId := Some(s)))
      else if column == "status" then Some(r.(status := s))
      else None
    case Day(d) =>
      if column == "tanggal" then Some(r.(tanggal := d))
      else None
    case _ => None
  }

  /** The intended partial update: a column is overwritten exactly when its
      argument passes its test, and keeps its old value otherwise. */
  function PatchAbsensi(r: Absensi, karyawanId: Option<string>, tanggal: Option<Date>, status: Option<string>): Absensi
  {
    Absensi(
      if NonEmpty(karyawanId) then karyawanId else r.karyawanId,
      if tanggal.Some? then tanggal.value else r.tanggal,
      if NonEmpty(status) then status.value else r.status)
  }

  /** `perbarui_absensi` sets a column exactly when its argument passes its
      test, and has nothing to update exactly when none does. */
  lemma AbsensiFields(karyawanId: Option<string>, tanggal: Option<Date>, status: Option<string>)
    ensures var fields := Fields(AbsensiChanges(karyawanId, tanggal, status));
      && ("karyawan_id" in fields <==> NonEmpty(karyawanId))
      && ("tanggal" in fields <==> tanggal.Some?)
      && ("status" in fields <==> NonEmpty(status))
      && (fields == [] <==> !NonEmpty(karyawanId) && tanggal.None? && !NonEmpty(status))
  {
    var cs := AbsensiChanges(karyawanId, tanggal, status);
    ColumnSupplied(cs, 0);
    ColumnSupplied(cs, 1);
    ColumnSupplied(cs, 2);
    NothingSupplied(cs);
  }

  /** Running the clauses `perbarui_absensi` builds on a row gives the intended row. */
  lemma AbsensiApplied(r: Absensi, karyawanId: Option<string>, tanggal: Option<Date>, status: Option<string>)
    ensures Apply(SetAbsensi, r, AbsensiChanges(karyawanId, tanggal, status)) == Some(PatchAbsensi(r, karyawanId, tanggal, status))
  {
    var cs := AbsensiChanges(karyawanId, tanggal, status);
    var p := PatchAbsensi(r, karyawanId, tanggal, status);
    var r1 := r.(karyawanId := p.karyawanId);
    var r2 := r1.(tanggal := p.tanggal);
    assert Apply(SetAbsensi, r2, cs[2..]) == Some(p);
    assert Apply(SetAbsensi, r1, cs[1..]) == Some(p);
  }
}
