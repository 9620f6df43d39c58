/** The partial-update convention shared by every `perbarui_*` function:
    walk the optional arguments in a fixed order, append `col = %s` to the
    field list and the value to the parameter list for each argument that
    passes its test, append the row id last, and issue
    `UPDATE t SET <fields> WHERE <pk> = %s`. */
module PartialUpdate {
  import opened Values

  /** One optional argument of an update: the column it sets, the caller's
      value (`None` when omitted), and the test in front of it. */
  datatype Candidate = Candidate(column: string, arg: Option<Value>, guard: Guard)

  predicate Supplies(c: Candidate)
  {
    Passes(c.guard, c.arg)
  }

  /** The candidates that enter the statement, in argument order. */
  function Supplied(cs: seq<Candidate>): (r: seq<Candidate>)
    ensures |r| <= |cs|
    ensures forall i :: 0 <= i < |r| ==> Supplies(r[i])
  {
    if cs == [] then []
    else (if Supplies(cs[0]) then [cs[0]] else []) + Supplied(cs[1..])
  }

  /** The `col = %s` clauses, as column names. */
  function Fields(cs: seq<Candidate>): seq<string>
  {
    var s := Supplied(cs);
    seq(|s|, i requires 0 <= i < |s| => s[i].column)
  }

  /** The parameters bound to the SET clauses (the id is appended after them). */
  function Params(cs: seq<Candidate>): seq<Value>
  {
    var s := Supplied(cs);
    seq(|s|, i requires 0 <= i < |s| => s[i].arg.value)
  }

  /** `a` occurs in `b` in the same relative order. */
  predicate IsSubsequence<T(==)>(a: seq<T>, b: seq<T>)
  {
    if a == [] then true
    else if b == [] then false
    else if a[0] == b[0] then IsSubsequence(a[1..], b[1..])
    else IsSubsequence(a, b[1..])
  }

  function ColumnsOf(cs: seq<Candidate>): seq<string>
  {
    seq(|cs|, i requires 0 <= i < |cs| => cs[i].column)
  }

  lemma {:induction false} SuppliedAppend(a: seq<Candidate>, b: seq<Candidate>)
    ensures Supplied(a + b) == Supplied(a) + Supplied(b)
  {
    if a != [] {
      var x := if Supplies(a[0]) then [a[0]] else [];
      assert (a + b)[0] == a[0] && (a + b)[1..] == a[1..] + b;
      SuppliedAppend(a[1..], b);
      calc {
        Supplied(a + b);
        x + Supplied(a[1..] + b);
        x + (Supplied(a[1..]) + Supplied(b));
        (x + Supplied(a[1..])) + Supplied(b);
        Supplied(a) + Supplied(b);
      }
    } else {
      assert a + b == b;
    }
  }

  /** A candidate is in the statement exactly when it is an argument and
      passes its test. */
  lemma {:induction false} SuppliedMembers(cs: seq<Candidate>, c: Candidate)
    ensures c in Supplied(cs) <==> c in cs && Supplies(c)
  {
    if cs != [] {
      SuppliedMembers(cs[1..], c);
      assert cs == [cs[0]] + cs[1..];
    }
  }

  /** The statement keeps the argument order. */
  lemma {:induction false} SuppliedInOrder(cs: seq<Candidate>)
    ensures IsSubsequence(Supplied(cs), cs)
  {
    if cs != [] {
      SuppliedInOrder(cs[1..]);
      if Supplies(cs[0]) {
        assert Supplied(cs) == [cs[0]] + Supplied(cs[1..]);
        assert Supplied(cs)[1..] == Supplied(cs[1..]);
      } else {
        assert Supplied(cs) == Supplied(cs[1..]);
        SubsequenceOfTail(Supplied(cs[1..]), cs);
      }
    }
  }

  lemma {:induction false} SubsequenceOfTail<T>(a: seq<T>, b: seq<T>)
    requires b != [] && IsSubsequence(a, b[1..])
    ensures IsSubsequence(a, b)
    decreases |a| + |b|, 1
  {
    if a != [] && a[0] == b[0] {
      SubsequenceOfDrop(a, b[1..]);
    }
  }

  lemma {:induction false} SubsequenceOfDrop<T>(a: seq<T>, b: seq<T>)
    requires a != [] && IsSubsequence(a, b)
    ensures IsSubsequence(a[1..], b)
    decreases |a| + |b|, 0
  {
    if a[0] == b[0] {
      SubsequenceOfTail(a[1..], b);
    } else {
      SubsequenceOfDrop(a, b[1..]);
      SubsequenceOfTail(a[1..], b);
    }
  }

  /** Lockstep: one parameter per clause, and clause `i` and parameter `i`
      come from the same supplied argument. */
  lemma Lockstep(cs: seq<Candidate>, i: int)
    requires 0 <= i < |Fields(cs)|
    ensures |Params(cs)| == |Fields(cs)|
    ensures Supplied(cs)[i] in cs && Supplies(Supplied(cs)[i])
    ensures Fields(cs)[i] == Supplied(cs)[i].column
    ensures Params(cs)[i] == Supplied(cs)[i].arg.value
  {
    SuppliedMembers(cs, Supplied(cs)[i]);
  }

  /** The clause order is the argument order. */
  lemma FieldsInArgumentOrder(cs: seq<Candidate>)
    ensures IsSubsequence(Fields(cs), ColumnsOf(cs))
  {
    SuppliedInOrder(cs);
    ProjectSubsequence(Supplied(cs), cs);
  }

  lemma {:induction false} ProjectSubsequence(a: seq<Candidate>, b: seq<Candidate>)
    requires IsSubsequence(a, b)
    ensures IsSubsequence(ColumnsOf(a), ColumnsOf(b))
  {
    if a != [] {
      assert ColumnsOf(a)[1..] == ColumnsOf(a[1..]);
      assert ColumnsOf(b)[1..] == ColumnsOf(b[1..]);
      if a[0] == b[0] {
        ProjectSubsequence(a[1..], b[1..]);
      } else {
        ProjectSubsequence(a, b[1..]);
        SubsequenceOfTail(ColumnsOf(a), ColumnsOf(b));
      }
    }
  }

  /** A column enters the statement exactly when one of its arguments passes
      its test. */
  lemma FieldsExactlySupplied(cs: seq<Candidate>, col: string)
    ensures col in Fields(cs) <==> exists i :: 0 <= i < |cs| && cs[i].column == col && Supplies(cs[i])
  {
    var s := Supplied(cs);
    if col in Fields(cs) {
      var k :| 0 <= k < |s| && s[k].column == col;
      SuppliedMembers(cs, s[k]);
      var i :| 0 <= i < |cs| && cs[i] == s[k];
    }
    if i :| 0 <= i < |cs| && cs[i].column == col && Supplies(cs[i]) {
      SuppliedMembers(cs, cs[i]);
      var k :| 0 <= k < |s| && s[k] == cs[i];
      assert Fields(cs)[k] == col;
    }
  }

  /** With distinct column names, a column is in the statement exactly when
      its own argument passes its test. */
  lemma ColumnSupplied(cs: seq<Candidate>, i: int)
    requires 0 <= i < |cs|
    requires forall j :: 0 <= j < |cs| && j != i ==> cs[j].column != cs[i].column
    ensures cs[i].column in Fields(cs) <==> Supplies(cs[i])
  {
    FieldsExactlySupplied(cs, cs[i].column);
  }

  /** No clause at all exactly when no argument passes its test. */
  lemma NothingSupplied(cs: seq<Candidate>)
    ensures Fields(cs) == [] <==> forall i :: 0 <= i < |cs| ==> !Supplies(cs[i])
  {
    if Fields(cs) != [] {
      FieldsExactlySupplied(cs, Fields(cs)[0]);
    } else {
      forall i | 0 <= i < |cs| ensures !Supplies(cs[i]) {
        FieldsExactlySupplied(cs, cs[i].column);
      }
    }
  }

  /** Builds the field and parameter lists the way every `perbarui_*`
      function does: one test per argument in order, clause and value
      appended together, the id appended last. */
  method BuildUpdate(cs: seq<Candidate>, id: string) returns (fields: seq<string>, params: seq<Value>)
    ensures fields == Fields(cs)
    ensures params == Params(cs) + [Text(id)]
  {
    fields, params := [], [];
    var i := 0;
    while i < |cs|
      invariant 0 <= i <= |cs|
      invariant fields == Fields(cs[..i])
      invariant params == Params(cs[..i])
    {
      var c := cs[i];
      BuildStep(cs, i);
      if Passes(c.guard, c.arg) {
        fields := fields + [c.column];
        params := params + [c.arg.value];
      }
      i := i + 1;
    }
    assert cs[..i] == cs;
    params := params + [Text(id)];
  }

  /** One more argument extends both lists by its clause and value when it
      passes its test, and neither otherwise. */
  lemma BuildStep(cs: seq<Candidate>, i: int)
    requires 0 <= i < |cs|
    ensures Fields(cs[..i + 1]) == Fields(cs[..i]) + (if Supplies(cs[i]) then [cs[i].column] else [])
    ensures Params(cs[..i + 1]) == Params(cs[..i]) + (if Supplies(cs[i]) then [cs[i].arg.value] else [])
  {
    assert cs[..i + 1] == cs[..i] + [cs[i]];
    SuppliedAppend(cs[..i], [cs[i]]);
    assert Supplied([cs[i]]) == if Supplies(cs[i]) then [cs[i]] else [];
  }

  /** Executes the SET clauses on one row, left to right; `assign` gives the
      row after one `col = value` clause, or `None` where the database would
      refuse it (an unknown column or a value of the wrong type). */
  function ApplySets<R>(assign: (R, string, Value) -> Option<R>, r: R, fields: seq<string>, vals: seq<Value>): Option<R>
    requires |fields| == |vals|
  {
    if fields == [] then Some(r)
    else match assign(r, fields[0], vals[0])
      case None => None
      case Some(r') => ApplySets(assign, r', fields[1..], vals[1..])
  }

  /** The row after every supplied argument has been written, in argument
      order; `None` if one of them cannot be written. */
  function Apply<R>(assign: (R, string, Value) -> Option<R>, r: R, cs: seq<Candidate>): Option<R>
  {
    if cs == [] then Some(r)
    else if !Supplies(cs[0]) then Apply(assign, r, cs[1..])
    else match assign(r, cs[0].column, cs[0].arg.value)
      case None => None
      case Some(r') => Apply(assign, r', cs[1..])
  }

  lemma {:induction false} ApplySetsOfBuilt<R>(assign: (R, string, Value) -> Option<R>, r: R, cs: seq<Candidate>)
    ensures |Fields(cs)| == |Params(cs)|
    ensures ApplySets(assign, r, Fields(cs), Params(cs)) == Apply(assign, r, cs)
  {
    if cs != [] {
      var s0 := Supplied(cs[1..]);
      assert Supplied(cs) == (if Supplies(cs[0]) then [cs[0]] else []) + s0;
      if Supplies(cs[0]) {
        assert Fields(cs)[1..] == Fields(cs[1..]);
        assert Params(cs)[1..] == Params(cs[1..]);
        match assign(r, cs[0].column, cs[0].arg.value)
        case None =>
        case Some(r') =>
          ApplySetsOfBuilt(assign, r', cs[1..]);
      } else {
        assert Fields(cs) == Fields(cs[1..]);
        assert Params(cs) == Params(cs[1..]);
        ApplySetsOfBuilt(assign, r, cs[1..]);
      }
    }
  }

  /** What running a statement did: the driver or the database refused it,
      or it ran and affected `rowcount` rows. */
  datatype Exec<R> = Rejected | Executed(rowcount: nat, table: map<string, R>)

  /** `UPDATE t SET f1 = %s, ..., fn = %s WHERE pk = %s` with `params`
      bound positionally: the first `n` parameters go to the SET clauses and
      the last one to the WHERE clause. An empty SET list is a syntax error;
      a parameter count that does not match the placeholders is refused by
      the driver. */
  function ExecuteUpdate<R>(t: map<string, R>, assign: (R, string, Value) -> Option<R>,
                            fields: seq<string>, params: seq<Value>): Exec<R>
  {
    if |fields| == 0 || |params| != |fields| + 1 then Rejected
    else match params[|fields|]
      case Text(key) =>
        if key !in t then Executed(0, t)
        else (match ApplySets(assign, t[key], fields, params[..|fields|])
              case None => Rejected
              case Some(r) => Executed(1, t[key := r]))
      case _ => Rejected
  }

  /** The statement the builder produces updates the row whose key is the id
      the caller gave, with exactly the supplied arguments, and nothing
      else. */
  lemma BuiltStatementTargetsId<R>(t: map<string, R>, assign: (R, string, Value) -> Option<R>,
                                   cs: seq<Candidate>, id: string)
    requires Fields(cs) != []
    ensures var e := ExecuteUpdate(t, assign, Fields(cs), Params(cs) + [Text(id)]);
      && (id !in t ==> e == Executed(0, t))
      && (id in t && Apply(assign, t[id], cs).Some? ==> e == Executed(1, t[id := Apply(assign, t[id], cs).value]))
      && (id in t && Apply(assign, t[id], cs).None? ==> e == Rejected)
  {
    var params := Params(cs) + [Text(id)];
    assert |Params(cs)| == |Fields(cs)|;
    assert params[|Fields(cs)|] == Text(id);
    assert params[..|Fields(cs)|] == Params(cs);
    if id in t {
      ApplySetsOfBuilt(assign, t[id], cs);
    }
  }
}
