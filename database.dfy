/** The restaurant database as one object whose eight tables the
    data-access functions change in place. Each method commits what its
    function in app.py commits; every other table is outside its frame. */
module Restaurant {
  import opened Values
  import opened PartialUpdate
  import opened Entities
  import opened Tables
  import opened Seed

  class Database {

    var karyawan: map<string, Karyawan>
    var pelanggan: map<string, Pelanggan>
    var supplier: map<string, Supplier>
    var bahanBaku: map<string, BahanBaku>
    var menu: map<string, Menu>
    var transaksi: map<string, Transaksi>
    var feedback: map<string, Feedback>
    var absensi: map<string, Absensi>

    /** The tables as `create_tables` leaves a new database: all empty. */
    constructor ()
      ensures Snapshot() == Db(map[], map[], map[], map[], map[], map[], map[], map[])
    {
      karyawan, pelanggan, supplier, bahanBaku := map[], map[], map[], map[];
      menu, transaksi, feedback, absensi := map[], map[], map[], map[];
    }

    /** The committed contents of all tables. */
    function Snapshot(): Db
      reads this
    {
      Db(karyawan, pelanggan, supplier, bahanBaku, menu, transaksi, feedback, absensi)
    }

    /** `insert_initial_data`: every empty table receives its seed batch, and
        the whole step commits at once or not at all. */
    method InsertInitialData(seeds: Batches) returns (committed: bool)
      modifies this
      ensures committed <==> SeedAll(old(Snapshot()), seeds).Some?
      ensures committed ==> SeedAll(old(Snapshot()), seeds) == Some(Snapshot())
      ensures !committed ==> Snapshot() == old(Snapshot())
    {
      var after;
      committed, after := RunSeeding(Snapshot(), seeds);
      if committed {
        assert after == Db(after.karyawan, after.pelanggan, after.supplier, after.bahanBaku, after.menu, after.transaksi, after.feedback, after.absensi);
        karyawan, pelanggan, supplier, bahanBaku := after.karyawan, after.pelanggan, after.supplier, after.bahanBaku;
        menu, transaksi, feedback, absensi := after.menu, after.transaksi, after.feedback, after.absensi;
      }
    }

    // ------------------------------------------------------------ karyawan

    /** `tambah_karyawan`: insert one row under a fresh `karyawan_id`. */
    method TambahKaryawan(id: string, employeeName: string, position: string, fingerprintId: Option<string>) returns (outcome: Outcome)
      modifies this`karyawan
      ensures Step(outcome, karyawan) == Insert(old(karyawan), id, Karyawan(employeeName, position, fingerprintId))
    {
      var s := Insert(karyawan, id, Karyawan(employeeName, position, fingerprintId));
      outcome, karyawan := s.outcome, s.table;
    }

    /** `perbarui_karyawan`: overwrite the columns whose arguments pass their
        tests, in the row keyed by `id`. */
    method PerbaruiKaryawan(id: string, employeeName: Option<string>, position: Option<string>, fingerprintId: Option<string>) returns (outcome: Outcome)
      modifies this`karyawan
      ensures Step(outcome, karyawan) == Update(old(karyawan), id, KaryawanChanges(employeeName, position, fingerprintId), SetKaryawan)
      ensures outcome == NothingToUpdate <==> !NonEmpty(employeeName) && !NonEmpty(position) && fingerprintId.None?
      ensures outcome == NotFound <==> outcome != NothingToUpdate && id !in old(karyawan)
      ensures outcome != Failed
      ensures outcome == Ok ==> karyawan == old(karyawan)[id := PatchKaryawan(old(karyawan)[id], employeeName, position, fingerprintId)]
    {
      KaryawanFields(employeeName, position, fingerprintId);
      if id in karyawan {
        KaryawanApplied(karyawan[id], employeeName, position, fingerprintId);
      }
      outcome, karyawan := RunUpdate(karyawan, id, KaryawanChanges(employeeName, position, fingerprintId), SetKaryawan);
    }

    /** `hapus_karyawan`: delete the row keyed by `id`. */
    method HapusKaryawan(id: string) returns (outcome: Outcome)
      modifies this`karyawan
      ensures Step(outcome, karyawan) == Delete(old(karyawan), id)
    {
      var s := Delete(karyawan, id);
      outcome, karyawan := s.outcome, s.table;
    }

    // ----------------------------------------------------------- pelanggan

    /** `tambah_pelanggan`: insert one row under a fresh `pelanggan_id`. */
    method TambahPelanggan(id: string, cusName: string, contactInfo: string) returns (outcome: Outcome)
      modifies this`pelanggan
      ensures Step(outcome, pelanggan) == Insert(old(pelanggan), id, Pelanggan(cusName, contactInfo))
    {
      var s := Insert(pelanggan, id, Pelanggan(cusName, contactInfo));
      outcome, pelanggan := s.outcome, s.table;
    }

    /** `perbarui_pelanggan`: overwrite the columns whose arguments pass their
        tests, in the row keyed by `id`. */
    method PerbaruiPelanggan(id: string, cusName: Option<string>, contactInfo: Option<string>) returns (outcome: Outcome)
      modifies this`pelanggan
      ensures Step(outcome, pelanggan) == Update(old(pelanggan), id, PelangganChanges(cusName, contactInfo), SetPelanggan)
      ensures outcome == NothingToUpdate <==> !NonEmpty(cusName) && !NonEmpty(contactInfo)
      ensures outcome == NotFound <==> outcome != NothingToUpdate && id !in old(pelanggan)
      ensures outcome != Failed
      ensures outcome == Ok ==> pelanggan == old(pelanggan)[id := PatchPelanggan(old(pelanggan)[id], cusName, contactInfo)]
    {
      PelangganFields(cusName, contactInfo);
      if id in pelanggan {
        PelangganApplied(pelanggan[id], cusName, contactInfo);
      }
      outcome, pelanggan := RunUpdate(pelanggan, id, PelangganChanges(cusName, contactInfo), SetPelanggan);
    }

    /** `hapus_pelanggan`: delete the row keyed by `id`. */
    method HapusPelanggan(id: string) returns (outcome: Outcome)
      modifies this`pelanggan
      ensures Step(outcome, pelanggan) == Delete(old(pelanggan), id)
    {
      var s := Delete(pelanggan, id);
      outcome, pelanggan := s.outcome, s.table;
    }

    // ------------------------------------------------------------ supplier

    /** `tambah_supplier`: insert one row under a fresh `supplier_id`. */
    method TambahSupplier(id: string, supplierName: string, address: string) returns (outcome: Outcome)
      modifies this`supplier
      ensures Step(outcome, supplier) == Insert(old(supplier), id, Supplier(supplierName, address))
    {
      var s := Insert(supplier, id, Supplier(supplierName, address));
      outcome, supplier := s.outcome, s.table;
    }

    /** `perbarui_supplier`: overwrite the columns whose arguments pass their
        tests, in the row keyed by `id`. */
    method PerbaruiSupplier(id: string, supplierName: Option<string>, address: Option<string>) returns (outcome: Outcome)
      modifies this`supplier
      ensures Step(outcome, supplier) == Update(old(supplier), id, SupplierChanges(supplierName, address), SetSupplier)
      ensures outcome == NothingToUpdate <==> !NonEmpty(supplierName) && !NonEmpty(address)
      ensures outcome == NotFound <==> outcome != NothingToUpdate && id !in old(supplier)
      ensures outcome != Failed
      ensures outcome == Ok ==> supplier == old(supplier)[id := PatchSupplier(old(supplier)[id], supplierName, address)]
    {
      SupplierFields(supplierName, address);
      if id in supplier {
        SupplierApplied(supplier[id], supplierName, address);
      }
      outcome, supplier := RunUpdate(supplier, id, SupplierChanges(supplierName, address), SetSupplier);
    }

    /** `hapus_supplier`: delete the row keyed by `id`. */
    method HapusSupplier(id: string) returns (outcome: Outcome)
      modifies this`supplier
      ensures Step(outcome, supplier) == Delete(old(supplier), id)
    {
      var s := Delete(supplier, id);
      outcome, supplier := s.outcome, s.table;
    }

    // ---------------------------------------------------------- bahan_baku

    /** `tambah_bahan_baku`: insert one row under a fresh `bahan_id`. */
    method TambahBahanBaku(id: string, namaBahan: string, stock: int, satuan: string, hargaBahan: int, supplierId: Option<string>) returns (outcome: Outcome)
      modifies this`bahanBaku
      ensures Step(outcome, bahanBaku) == Insert(old(bahanBaku), id, BahanBaku(namaBahan, stock, satuan, hargaBahan, supplierId))
    {
      var s := Insert(bahanBaku, id, BahanBaku(namaBahan, stock, satuan, hargaBahan, supplierId));
      outcome, bahanBaku := s.outcome, s.table;
    }

    /** `perbarui_bahan_baku`: overwrite the columns whose arguments pass their
        tests, in the row keyed by `id`. */
    method PerbaruiBahanBaku(id: string, namaBahan: Option<string>, stock: Option<int>, satuan: Option<string>, hargaBahan: Option<int>, supplierId: Option<string>) returns (outcome: Outcome)
      modifies this`bahanBaku
      ensures Step(outcome, bahanBaku) == Update(old(bahanBaku), id, BahanBakuChanges(namaBahan, stock, satuan, hargaBahan, supplierId), SetBahanBaku)
      ensures outcome == NothingToUpdate <==> !NonEmpty(namaBahan) && stock.None? && !NonEmpty(satuan) && hargaBahan.None? && !NonEmpty(supplierId)
      ensures outcome == NotFound <==> outcome != NothingToUpdate && id !in old(bahanBaku)
      ensures outcome != Failed
      ensures outcome == Ok ==> bahanBaku == old(bahanBaku)[id := PatchBahanBaku(old(bahanBaku)[id], namaBahan, stock, satuan, hargaBahan, supplierId)]
    {
      BahanBakuFields(namaBahan, stock, satuan, hargaBahan, supplierId);
      if id in bahanBaku {
        BahanBakuApplied(bahanBaku[id], namaBahan, stock, satuan, hargaBahan, supplierId);
      }
      outcome, bahanBaku := RunUpdate(bahanBaku, id, BahanBakuChanges(namaBahan, stock, satuan, hargaBahan, supplierId), SetBahanBaku);
    }

    /** `hapus_bahan_baku`: delete the row keyed by `id`. */
    method HapusBahanBaku(id: string) returns (outcome: Outcome)
      modifies this`bahanBaku
      ensures Step(outcome, bahanBaku) == Delete(old(bahanBaku), id)
    {
      var s := Delete(bahanBaku, id);
      outcome, bahanBaku := s.outcome, s.table;
    }

    // ---------------------------------------------------------------- menu

    /** `tambah_menu`: insert one row under a fresh `menu_id`. */
    method TambahMenu(id: string, namaMenu: string, harga: int) returns (outcome: Outcome)
      modifies this`menu
      ensures Step(outcome, menu) == Insert(old(menu), id, Menu(namaMenu, harga))
    {
      var s := Insert(menu, id, Menu(namaMenu, harga));
      outcome, menu := s.outcome, s.table;
    }

    /** `perbarui_menu`: overwrite the columns whose arguments pass their
        tests, in the row keyed by `id`. */
    method PerbaruiMenu(id: string, namaMenu: Option<string>, harga: Option<int>) returns (outcome: Outcome)
      modifies this`menu
      ensures Step(outcome, menu) == Update(old(menu), id, MenuChanges(namaMenu, harga), SetMenu)
      ensures outcome == NothingToUpdate <==> !NonEmpty(namaMenu) && harga.None?
      ensures outcome == NotFound <==> outcome != NothingToUpdate && id !in old(menu)
      ensures outcome != Failed
      ensures outcome == Ok ==> menu == old(menu)[id := PatchMenu(old(menu)[id], namaMenu, harga)]
    {
      MenuFields(namaMenu, harga);
      if id in menu {
        MenuApplied(menu[id], namaMenu, harga);
      }
      outcome, menu := RunUpdate(menu, id, MenuChanges(namaMenu, harga), SetMenu);
    }

    /** `hapus_menu`: delete the row keyed by `id`. */
    method HapusMenu(id: string) returns (outcome: Outcome)
      modifies this`menu
      ensures Step(outcome, menu) == Delete(old(menu), id)
    {
      var s := Delete(menu, id);
      outcome, menu := s.outcome, s.table;
    }

    // ----------------------------------------------------------- transaksi

    /** `tambah_transaksi`: insert one row under a fresh `transaksi_id`. */
    method TambahTransaksi(id: string, tanggalPembelian: Date, pelangganId: Option<string>, karyawanId: Option<string>, totalTransaksi: int) returns (outcome: Outcome)
      modifies this`transaksi
      ensures Step(outcome, transaksi) == Insert(old(transaksi), id, Transaksi(tanggalPembelian, pelangganId, karyawanId, totalTransaksi))
    {
      var s := Insert(transaksi, id, Transaksi(tanggalPembelian, pelangganId, karyawanId, totalTransaksi));
      outcome, transaksi := s.outcome, s.table;
    }

    /** `perbarui_transaksi`: overwrite the columns whose arguments pass their
        tests, in the row keyed by `id`. */
    method PerbaruiTransaksi(id: string, tanggalPembelian: Option<Date>, pelangganId: Option<string>, karyawanId: Option<string>, totalTransaksi: Option<int>) returns (outcome: Outcome)
      modifies this`transaksi
      ensures Step(outcome, transaksi) == Update(old(transaksi), id, TransaksiChanges(tanggalPembelian, pelangganId, karyawanId, totalTransaksi), SetTransaksi)
      ensures outcome == NothingToUpdate <==> tanggalPembelian.None? && !NonEmpty(pelangganId) && !NonEmpty(karyawanId) && totalTransaksi.None?
      ensures outcome == NotFound <==> outcome != NothingToUpdate && id !in old(transaksi)
      ensures outcome != Failed
      ensures outcome == Ok ==> transaksi == old(transaksi)[id := PatchTransaksi(old(transaksi)[id], tanggalPembelian, pelangganId, karyawanId, totalTransaksi)]
    {
      TransaksiFields(tanggalPembelian, pelangganId, karyawanId, totalTransaksi);
      if id in transaksi {
        TransaksiApplied(transaksi[id], tanggalPembelian, pelangganId, karyawanId, totalTransaksi);
      }
      outcome, transaksi := RunUpdate(transaksi, id, TransaksiChanges(tanggalPembelian, pelangganId, karyawanId, totalTransaksi), SetTransaksi);
    }

    /** `hapus_transaksi`: delete the row keyed by `id`. */
    method HapusTransaksi(id: string) returns (outcome: Outcome)
      modifies this`transaksi
      ensures Step(outcome, transaksi) == Delete(old(transaksi), id)
    {
      var s := Delete(transaksi, id);
      outcome, transaksi := s.outcome, s.table;
    }

    // ------------------------------------------------------------ feedback

    /** `tambah_feedback`: insert one row under a fresh `feedback_id`. */
    method TambahFeedback(id: string, pelangganId: Option<string>, karyawanId: Option<string>, tanggal: Date, rating: int, komentar: Option<string>) returns (outcome: Outcome)
      modifies this`feedback
      ensures Step(outcome, feedback) == Insert(old(feedback), id, Feedback(pelangganId, karyawanId, tanggal, rating, komentar))
    {
      var s := Insert(feedback, id, Feedback(pelangganId, karyawanId, tanggal, rating, komentar));
      outcome, feedback := s.outcome, s.table;
    }

    /** `perbarui_feedback`: overwrite the columns whose arguments pass their
        tests, in the row keyed by `id`. */
    method PerbaruiFeedback(id: string, pelangganId: Option<string>, karyawanId: Option<string>, tanggal: Option<Date>, rating: Option<int>, komentar: Option<string>) returns (outcome: Outcome)
      modifies this`feedback
      ensures Step(outcome, feedback) == Update(old(feedback), id, FeedbackChanges(pelangganId, karyawanId, tanggal, rating, komentar), SetFeedback)
      ensures outcome == NothingToUpdate <==> !NonEmpty(pelangganId) && !NonEmpty(karyawanId) && tanggal.None? && rating.None? && !NonEmpty(komentar)
      ensures outcome == NotFound <==> outcome != NothingToUpdate && id !in old(feedback)
      ensures outcome != Failed
      ensures outcome == Ok ==> feedback == old(feedback)[id := PatchFeedback(old(feedback)[id], pelangganId, karyawanId, tanggal, rating, komentar)]
    {
      FeedbackFields(pelangganId, karyawanId, tanggal, rating, komentar);
      if id in feedback {
        FeedbackApplied(feedback[id], pelangganId, karyawanId, tanggal, rating, komentar);
      }
      outcome, feedback := RunUpdate(feedback, id, FeedbackChanges(pelangganId, karyawanId, tanggal, rating, komentar), SetFeedback);
    }

    /** `hapus_feedback`: delete the row keyed by `id`. */
    method HapusFeedback(id: string) returns (outcome: Outcome)
      modifies this`feedback
      ensures Step(outcome, feedback) == Delete(old(feedback), id)
    {
      var s := Delete(feedback, id);
      outcome, feedback := s.outcome, s.table;
    }

    // ------------------------------------------------------------- absensi

    /** `tambah_absensi`: insert one row under a fresh `absensi_id`. */
    method TambahAbsensi(id: string, karyawanId: Option<string>, tanggal: Date, status: string) returns (outcome: Outcome)
      modifies this`absensi
      ensures Step(outcome, absensi) == Insert(old(absensi), id, Absensi(karyawanId, tanggal, status))
    {
      var s := Insert(absensi, id, Absensi(karyawanId, tanggal, status));
      outcome, absensi := s.outcome, s.table;
    }

    /** `perbarui_absensi`: overwrite the columns whose arguments pass their
        tests, in the row keyed by `id`. */
    method PerbaruiAbsensi(id: string, karyawanId: Option<string>, tanggal: Option<Date>, status: Option<string>) returns (outcome: Outcome)
      modifies this`absensi
      ensures Step(outcome, absensi) == Update(old(absensi), id, AbsensiChanges(karyawanId, tanggal, status), SetAbsensi)
      ensures outcome == NothingToUpdate <==> !NonEmpty(karyawanId) && tanggal.None? && !NonEmpty(status)
      ensures outcome == NotFound <==> outcome != NothingToUpdate && id !in old(absensi)
      ensures outcome != Failed
      ensures outcome == Ok ==> absensi == old(absensi)[id := PatchAbsensi(old(absensi)[id], karyawanId, tanggal, status)]
    {
      AbsensiFields(karyawanId, tanggal, status);
      if id in absensi {
        AbsensiApplied(absensi[id], karyawanId, tanggal, status);
      }
      outcome, absensi := RunUpdate(absensi, id, AbsensiChanges(karyawanId, tanggal, status), SetAbsensi);
    }

    /** `hapus_absensi`: delete the row keyed by `id`. */
    method HapusAbsensi(id: string) returns (outcome: Outcome)
      modifies this`absensi
      ensures Step(outcome, absensi) == Delete(old(absensi), id)
    {
      var s := Delete(absensi, id);
      outcome, absensi := s.outcome, s.table;
    }
  }
}
