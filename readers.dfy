/** The read-only list builders: getIncomes and the three name-list
    readers with their fallback lists. Each is specified by a function on
    the sheet's rows and implemented by a method with the source's loop. */
module Readers {
  import opened Cells
  import opened Layout
  import opened Table

  /** Decodes data rows one by one, in row order. */
  function DecodeRows(d: seq<Row>): (r: seq<Income>)
    ensures |r| == |d|
    ensures forall k :: 0 <= k < |d| ==> r[k] == DecodeIncome(d[k])
  {
    if d == [] then [] else [DecodeIncome(d[0])] + DecodeRows(d[1..])
  }

  /** getIncomes: no records for a sheet without rows, otherwise one record
      per data row, header excluded, in row order. */
  function Incomes(s: Sheet): (r: seq<Income>)
    ensures |s| == 0 ==> r == []
    ensures |s| > 0 ==> |r| == |s| - 1 && forall k :: 0 <= k < |r| ==> r[k] == DecodeIncome(s[k + 1])
  {
    if |s| == 0 then [] else DecodeRows(s[1..])
  }

  /** The loop of getIncomes over the snapshot of the sheet. */
  method GetIncomes(s: Sheet) returns (incomes: seq<Income>)
    ensures incomes == Incomes(s)
  {
    if |s| == 0 {
      return [];
    }
    incomes := [];
    var i := 1;
    while i < |s|
      invariant 1 <= i <= |s|
      invariant |incomes| == i - 1
      invariant forall k :: 0 <= k < i - 1 ==> incomes[k] == DecodeIncome(s[k + 1])
    {
      incomes := incomes + [DecodeIncome(s[i])];
      i := i + 1;
    }
  }

  /** An income written by the add is read back, after all earlier records,
      field for field. */
  lemma AddedIncomeReadBack(s: Sheet, x: Income)
    ensures Incomes(AppendRecord(s, IncomeHeader, EncodeIncome(x))) == Incomes(s) + [x]
  {
    var t := AppendRecord(s, IncomeHeader, EncodeIncome(x));
    var a, b := Incomes(t), Incomes(s) + [x];
    assert |a| == |b|;
    forall k | 0 <= k < |a|
      ensures a[k] == b[k]
    {
      if k == |a| - 1 {
        assert t[k + 1] == EncodeIncome(x);
      }
    }
  }

  /** The update rewrites the matched record and no other: the list read
      back has the new record at that position and the same length. */
  lemma UpdatedIncomeReadBack(s: Sheet, x: Income, i: nat)
    requires IsFirstMatch(s, x.id, i)
    ensures Incomes(OverwriteFirst(s, x.id, EncodeIncome(x))) == Incomes(s)[i - 1 := x]
  {
    var vals := EncodeIncome(x);
    OverwriteFirstTouchesOne(s, x.id, vals, i);
    var t := OverwriteFirst(s, x.id, vals);
    var row := Overwrite(s[i], vals);
    assert t[i] == row;
    assert DecodeIncome(row) == x by {
      forall k | 0 <= k < IncomeWidth
        ensures CellAt(row, k) == vals[k]
      {
        assert row[..|vals|][k] == vals[k];
      }
    }
  }

  /** The first cells of the data rows that are truthy, in row order. */
  function TruthyKeys(d: seq<Row>): (r: seq<Cell>)
    ensures |r| <= |d|
    ensures forall c :: c in r ==> Truthy(c)
    ensures forall k :: 0 <= k < |d| && Truthy(KeyOf(d[k])) ==> KeyOf(d[k]) in r
    ensures forall c :: c in r ==> exists k :: 0 <= k < |d| && KeyOf(d[k]) == c
    ensures r == [] <==> forall k :: 0 <= k < |d| ==> !Truthy(KeyOf(d[k]))
  {
    if d == [] then []
    else if Truthy(KeyOf(d[0])) then [KeyOf(d[0])] + TruthyKeys(d[1..])
    else TruthyKeys(d[1..])
  }

  /** The list grows by the next row's key exactly when that key is truthy. */
  lemma {:induction false} TruthyKeysSnoc(d: seq<Row>, row: Row)
    ensures TruthyKeys(d + [row]) == TruthyKeys(d) + (if Truthy(KeyOf(row)) then [KeyOf(row)] else [])
  {
    if d == [] {
      assert [] + [row] == [row];
    } else {
      assert (d + [row])[1..] == d[1..] + [row];
      TruthyKeysSnoc(d[1..], row);
    }
  }

  /** What a name-list reader returns: the fallback for a sheet without rows
      or without a truthy name, otherwise the truthy names in row order. */
  function NameList(s: Sheet, fallback: seq<Cell>): (r: seq<Cell>)
    ensures |s| == 0 ==> r == fallback
    ensures |s| > 0 && (forall k :: 1 <= k < |s| ==> !Truthy(KeyOf(s[k]))) ==> r == fallback
    ensures (exists k :: 1 <= k < |s| && Truthy(KeyOf(s[k]))) ==> r == TruthyKeys(s[1..])
  {
    if |s| == 0 then fallback
    else
      var names := TruthyKeys(s[1..]);
      assert (forall k :: 1 <= k < |s| ==> !Truthy(KeyOf(s[k]))) ==> names == [] by {
        forall k | 0 <= k < |s| - 1 ensures s[1..][k] == s[k + 1] {}
      }
      if |names| > 0 then names else fallback
  }

  /** The loop shared by getOperators, getAnkety and getAdmins. */
  method GetNames(s: Sheet, fallback: seq<Cell>) returns (names: seq<Cell>)
    ensures names == NameList(s, fallback)
  {
    if |s| == 0 {
      return fallback;
    }
    names := [];
    var i := 1;
    while i < |s|
      invariant 1 <= i <= |s|
      invariant names == TruthyKeys(s[1..i])
    {
      TruthyKeysSnoc(s[1..i], s[i]);
      assert s[1..i + 1] == s[1..i] + [s[i]];
      if Truthy(KeyOf(s[i])) {
        names := names + [KeyOf(s[i])];
      }
      i := i + 1;
    }
    assert s[1..i] == s[1..];
    if |names| == 0 {
      names := fallback;
    }
  }

  const DefaultOperators: seq<Cell> := [Text("Operator 1"), Text("Operator 2"), Text("Operator 3")]

  const DefaultAnkety: seq<Cell> := [
    Text("Succuba"), Text("Mommy"), Text("Nola"), Text("Lust"),
    Text("Mermaid"), Text("Stacy"), Text("Fitness"), Text("Caitlyn")]

  const DefaultAdmins: seq<Cell> := [Text("Admin 1"), Text("Admin 2")]

  method GetOperators(s: Sheet) returns (names: seq<Cell>)
    ensures names == NameList(s, DefaultOperators)
  {
    names := GetNames(s, DefaultOperators);
  }

  method GetAnkety(s: Sheet) returns (names: seq<Cell>)
    ensures names == NameList(s, DefaultAnkety)
  {
    names := GetNames(s, DefaultAnkety);
  }

  method GetAdmins(s: Sheet) returns (names: seq<Cell>)
    ensures names == NameList(s, DefaultAdmins)
  {
    names := GetNames(s, DefaultAdmins);
  }

  /** A name-list reader never returns an empty list. */
  lemma NameListNonEmpty(s: Sheet, fallback: seq<Cell>)
    requires fallback != []
    ensures NameList(s, fallback) != []
  {
  }

  /** A truthy name added to a name table is listed by its reader, and the
      reader then no longer falls back to the default list. */
  lemma AddedNameListed(s: Sheet, header: Row, name: Cell, fallback: seq<Cell>)
    requires Truthy(name)
    ensures name in NameList(AddName(s, header, name), fallback)
    ensures NameList(AddName(s, header, name), fallback) == TruthyKeys(AddName(s, header, name)[1..])
  {
    var t := AddName(s, header, name);
    AddNameHolds(s, header, name);
    var i := FirstMatch(t, name).value;
    assert 1 <= i < |t| && KeyOf(t[i]) == name;
    assert KeyOf(t[1..][i - 1]) == name;
  }
}
