/** One table as a map from primary key to row, and what the data-access
    functions do to it: `tambah_*` inserts one row, `hapus_*` deletes by key,
    `perbarui_*` runs the partial UPDATE and reports `rowcount`, and the seeding
    step inserts a batch into an empty table. */
module Tables {
  import opened Values
  import opened PartialUpdate

  /** What a data-access function reports to the user: success, the
      `IntegrityError` of a taken key, "no field to update", `rowcount == 0`
      ("not found"), or any other database error (rolled back). */
  datatype Outcome = Ok | Duplicate | NothingToUpdate | NotFound | Failed

  /** An outcome together with the table as committed afterwards. */
  datatype Step<R> = Step(outcome: Outcome, table: map<string, R>)

  /** `tambah_*`: an INSERT keyed by `id`. A taken key raises
      `IntegrityError` and the transaction is rolled back. */
  function Insert<R>(t: map<string, R>, id: string, row: R): Step<R>
  {
    if id in t then Step(Duplicate, t) else Step(Ok, t[id := row])
  }

  /** `hapus_*`: a DELETE keyed by `id`; `rowcount == 0` means not found. */
  function Delete<R>(t: map<string, R>, id: string): Step<R>
  {
    if id in t then Step(Ok, t - {id}) else Step(NotFound, t)
  }

  /** `perbarui_*`, stated on the candidates rather than on the SQL text:
      nothing supplied returns before any statement runs; a missing key
      matches no row; otherwise the one row gets every supplied column. */
  function Update<R>(t: map<string, R>, id: string, cs: seq<Candidate>,
                     assign: (R, string, Value) -> Option<R>): Step<R>
  {
    if Fields(cs) == [] then Step(NothingToUpdate, t)
    else if id !in t then Step(NotFound, t)
    else match Apply(assign, t[id], cs)
      case None => Step(Failed, t)
      case Some(r) => Step(Ok, t[id := r])
  }

  /** A duplicate key leaves the table as it was; a fresh key adds exactly
      that one row and keeps every other row. */
  lemma InsertEffect<R>(t: map<string, R>, id: string, row: R)
    ensures var s := Insert(t, id, row);
      && (s.outcome == Duplicate <==> id in t)
      && (s.outcome == Duplicate ==> s.table == t)
      && (s.outcome != Duplicate ==> s.outcome == Ok)
      && (s.outcome == Ok ==>
            && |s.table| == |t| + 1
            && s.table.Keys == t.Keys + {id}
            && s.table[id] == row
            && (forall k :: k in t ==> s.table[k] == t[k]))
  {
  }

  /** Deleting removes only the row with that key; a missing key changes
      nothing and is reported as not found. */
  lemma DeleteEffect<R>(t: map<string, R>, id: string)
    ensures var s := Delete(t, id);
      && (s.outcome == NotFound <==> id !in t)
      && (s.outcome != NotFound ==> s.outcome == Ok)
      && (s.outcome == NotFound ==> s.table == t)
      && (s.outcome == Ok ==>
            && |s.table| == |t| - 1
            && s.table.Keys == t.Keys - {id}
            && (forall k :: k in s.table ==> s.table[k] == t[k]))
  {
  }

  /** The second of two deletions of the same key never succeeds. */
  lemma DeleteTwiceNeverOkTwice<R>(t: map<string, R>, id: string)
    ensures var s := Delete(Delete(t, id).table, id);
      s.outcome == NotFound && s.table == t - {id}
  {
  }

  /** An update touches at most the one row with that key, and only when
      some argument was supplied and the key exists. */
  lemma UpdateEffect<R>(t: map<string, R>, id: string, cs: seq<Candidate>,
                        assign: (R, string, Value) -> Option<R>)
    ensures var s := Update(t, id, cs, assign);
      && (s.outcome == NothingToUpdate <==> forall i :: 0 <= i < |cs| ==> !Supplies(cs[i]))
      && (s.outcome == NotFound <==> Fields(cs) != [] && id !in t)
      && (s.outcome in {Ok, NothingToUpdate, NotFound, Failed})
      && (s.outcome != Ok ==> s.table == t)
      && (s.outcome == Ok ==>
            && s.table.Keys == t.Keys
            && Some(s.table[id]) == Apply(assign, t[id], cs)
            && (forall k :: k in t && k != id ==> s.table[k] == t[k]))
  {
    NothingSupplied(cs);
  }

  /** The statement as app.py executes it: build the clauses, stop when
      none was built, run the UPDATE, and read `rowcount`. */
  method RunUpdate<R>(t: map<string, R>, id: string, cs: seq<Candidate>,
                      assign: (R, string, Value) -> Option<R>)
      returns (outcome: Outcome, t': map<string, R>)
    ensures Step(outcome, t') == Update(t, id, cs, assign)
  {
    var fields, params := BuildUpdate(cs, id);
    if |fields| == 0 {
      return NothingToUpdate, t;
    }
    BuiltStatementTargetsId(t, assign, cs, id);
    var e := ExecuteUpdate(t, assign, fields, params);
    match e
    case Rejected =>
      outcome, t' := Failed, t;
    case Executed(rowcount, after) =>
      if rowcount == 0 {
        outcome, t' := NotFound, t;
      } else {
        outcome, t' := Ok, after;
      }
  }

  // ------------------------------------------------------------- seeding

  /** The keys of a batch of rows. */
  function KeySet<R>(rows: seq<(string, R)>): set<string>
  {
    set i | 0 <= i < |rows| :: rows[i].0
  }

  /** No key occurs twice in the batch, and none is already in `t`. */
  predicate Fresh<R>(t: map<string, R>, rows: seq<(string, R)>)
  {
    && (forall i, j :: 0 <= i < j < |rows| ==> rows[i].0 != rows[j].0)
    && (forall i :: 0 <= i < |rows| ==> rows[i].0 !in t)
  }

  /** `executemany` of one INSERT over a batch: the first taken key raises
      and nothing of the batch remains. */
  function InsertMany<R>(t: map<string, R>, rows: seq<(string, R)>): Option<map<string, R>>
    decreases |rows|
  {
    if rows == [] then Some(t)
    else if rows[0].0 in t then None
    else InsertMany(t[rows[0].0 := rows[0].1], rows[1..])
  }

  lemma FreshCons<R>(t: map<string, R>, rows: seq<(string, R)>)
    requires rows != [] && rows[0].0 !in t
    ensures Fresh(t, rows) <==> Fresh(t[rows[0].0 := rows[0].1], rows[1..])
  {
    var t1, rest := t[rows[0].0 := rows[0].1], rows[1..];
    if Fresh(t1, rest) {
      forall i | 0 <= i < |rows| ensures rows[i].0 !in t {
        if i > 0 { assert rows[i] == rest[i - 1]; }
      }
      forall i, j | 0 <= i < j < |rows| ensures rows[i].0 != rows[j].0 {
        assert rows[j] == rest[j - 1];
        if i > 0 { assert rows[i] == rest[i - 1]; }
      }
    }
    if Fresh(t, rows) {
      forall i | 0 <= i < |rest| ensures rest[i].0 !in t1 {
        assert rest[i] == rows[i + 1];
      }
      forall i, j | 0 <= i < j < |rest| ensures rest[i].0 != rest[j].0 {
        assert rest[i] == rows[i + 1] && rest[j] == rows[j + 1];
      }
    }
  }

  lemma KeySetCons<R>(rows: seq<(string, R)>)
    requires rows != []
    ensures KeySet(rows) == {rows[0].0} + KeySet(rows[1..])
  {
    var rest := rows[1..];
    forall x | x in KeySet(rows) ensures x in {rows[0].0} + KeySet(rest) {
      var i :| 0 <= i < |rows| && rows[i].0 == x;
      if i > 0 { assert rows[i] == rest[i - 1]; }
    }
    forall x | x in KeySet(rest) ensures x in KeySet(rows) {
      var i :| 0 <= i < |rest| && rest[i].0 == x;
      assert rows[i + 1] == rest[i];
    }
  }

  /** A batch goes in exactly when its keys are distinct and all fresh. */
  lemma {:induction false} InsertManySucceeds<R>(t: map<string, R>, rows: seq<(string, R)>)
    ensures InsertMany(t, rows).Some? <==> Fresh(t, rows)
    decreases |rows|
  {
    if rows != [] {
      if rows[0].0 in t {
        assert !Fresh(t, rows) by { assert rows[0].0 in t; }
      } else {
        FreshCons(t, rows);
        InsertManySucceeds(t[rows[0].0 := rows[0].1], rows[1..]);
      }
    }
  }

  /** A batch that goes in adds exactly its rows and keeps every old one. */
  lemma {:induction false} InsertManyContents<R>(t: map<string, R>, rows: seq<(string, R)>)
    requires InsertMany(t, rows).Some?
    ensures var m := InsertMany(t, rows).value;
      && m.Keys == t.Keys + KeySet(rows)
      && (forall k :: k in t ==> m[k] == t[k])
      && (forall i :: 0 <= i < |rows| ==> m[rows[i].0] == rows[i].1)
    decreases |rows|
  {
    if rows != [] {
      var t1, rest := t[rows[0].0 := rows[0].1], rows[1..];
      InsertManyContents(t1, rest);
      KeySetCons(rows);
      var m := InsertMany(t, rows).value;
      forall i | 0 <= i < |rows| ensures m[rows[i].0] == rows[i].1 {
        if i > 0 { assert rows[i] == rest[i - 1]; }
      }
    }
  }

  /** A batch that goes in grows the table by exactly its length. */
  lemma {:induction false} InsertManySize<R>(t: map<string, R>, rows: seq<(string, R)>)
    requires InsertMany(t, rows).Some?
    ensures |InsertMany(t, rows).value| == |t| + |rows|
    decreases |rows|
  {
    if rows != [] {
      InsertManySize(t[rows[0].0 := rows[0].1], rows[1..]);
    }
  }

  /** One step of `insert_initial_data`: the batch goes in only when the
      table counts zero rows; a table with rows is left alone. */
  function SeedTable<R>(t: map<string, R>, rows: seq<(string, R)>): Option<map<string, R>>
  {
    if |t| == 0 then InsertMany(t, rows) else Some(t)
  }

  /** Seeding a table that seeding already left behind changes nothing. */
  lemma {:induction false} SeedTableIdempotent<R>(t: map<string, R>, rows: seq<(string, R)>)
    requires SeedTable(t, rows).Some?
    ensures SeedTable(SeedTable(t, rows).value, rows) == SeedTable(t, rows)
  {
    if |t| == 0 {
      InsertManySize(t, rows);
      var m := SeedTable(t, rows).value;
      if |m| == 0 {
        assert rows == [];
      }
    }
  }

  /** Seeding an empty table with a batch of distinct keys never fails and
      leaves exactly that batch. */
  lemma SeedEmptyTable<R>(t: map<string, R>, rows: seq<(string, R)>)
    requires |t| == 0 && Fresh(t, rows)
    ensures SeedTable(t, rows).Some?
    ensures var m := SeedTable(t, rows).value;
      && |m| == |rows|
      && m.Keys == KeySet(rows)
      && (forall i :: 0 <= i < |rows| ==> m[rows[i].0] == rows[i].1)
  {
    InsertManySucceeds(t, rows);
    InsertManyContents(t, rows);
    InsertManySize(t, rows);
  }
}
