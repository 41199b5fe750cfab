/** The table operations every sheet shares, as functions on the rows:
    lazy header plus append, the first-match scan over the data rows,
    delete of the first match, overwrite of the first match, and the
    duplicate-checked append of the name tables. */
module Table {
  import opened Cells

  datatype Option<T> = None | Some(value: T)

  /** The sheet after the lazy header write: a sheet with no rows gets the
      header, any other sheet is left as it is. */
  function WithHeader(s: Sheet, header: Row): (r: Sheet)
    ensures |s| == 0 ==> r == [header]
    ensures |s| > 0 ==> r == s
  {
    if |s| == 0 then [header] else s
  }

  /** An add: header first if the sheet is empty, then the record's row. On
      an empty sheet the result is exactly [header, row]; otherwise one row
      is added at the end and every earlier row keeps its value and place. */
  function AppendRecord(s: Sheet, header: Row, row: Row): (r: Sheet)
    ensures |s| == 0 ==> r == [header, row]
    ensures |s| > 0 ==> |r| == |s| + 1 && r[|s|] == row
    ensures forall j :: 0 <= j < |s| ==> r[j] == s[j]
  {
    WithHeader(s, header) + [row]
  }

  /** The data row (index 1 or more) whose key equals `key` and that comes
      first, scanning from index `from`; None when no row from there on has it. */
  function FirstMatchFrom(s: Sheet, key: Cell, from: nat): (r: Option<nat>)
    decreases |s| - from
    ensures r.Some? ==> from <= r.value < |s| && KeyOf(s[r.value]) == key
    ensures r.Some? ==> forall j :: from <= j < r.value ==> KeyOf(s[j]) != key
    ensures r.None? ==> forall j :: from <= j < |s| ==> KeyOf(s[j]) != key
  {
    if from >= |s| then None
    else if KeyOf(s[from]) == key then Some(from)
    else FirstMatchFrom(s, key, from + 1)
  }

  /** The scan `for (let i = 1; i < data.length; i++) if (data[i][0] == key)`:
      the header row is never a candidate. */
  function FirstMatch(s: Sheet, key: Cell): (r: Option<nat>)
    ensures r.Some? ==> IsFirstMatch(s, key, r.value)
    ensures r.None? ==> NoMatch(s, key)
  {
    FirstMatchFrom(s, key, 1)
  }

  /** Holds when i is where the scan stops: the first data row with the key. */
  ghost predicate IsFirstMatch(s: Sheet, key: Cell, i: nat)
  {
    1 <= i < |s| && KeyOf(s[i]) == key && forall j :: 1 <= j < i ==> KeyOf(s[j]) != key
  }

  /** No data row carries the key. */
  ghost predicate NoMatch(s: Sheet, key: Cell)
  {
    forall j :: 1 <= j < |s| ==> KeyOf(s[j]) != key
  }

  /** The scan finds i exactly when i is the first data row with the key,
      and finds nothing exactly when no data row has it. */
  lemma FirstMatchCharacterized(s: Sheet, key: Cell, i: nat)
    ensures FirstMatch(s, key) == Some(i) <==> IsFirstMatch(s, key, i)
    ensures FirstMatch(s, key).None? <==> NoMatch(s, key)
  {
  }

  /** deleteRow(i + 1) at the first match, or nothing when no data row matches. */
  function DeleteFirst(s: Sheet, key: Cell): (r: Sheet)
    ensures |s| > 0 ==> |r| > 0 && r[0] == s[0]
    ensures r == s <==> NoMatch(s, key)
    ensures !NoMatch(s, key) ==> |r| == |s| - 1
  {
    match FirstMatch(s, key)
    case None => s
    case Some(i) => s[..i] + s[i + 1..]
  }

  /** Delete by key removes exactly the first matching data row: the header
      and every other row keep their values and relative order, and the
      removed row is the only one missing. */
  lemma DeleteFirstRemovesOne(s: Sheet, key: Cell, i: nat)
    requires IsFirstMatch(s, key, i)
    ensures var r := DeleteFirst(s, key);
      && |r| == |s| - 1
      && r[0] == s[0]
      && (forall j :: 0 <= j < i ==> r[j] == s[j])
      && (forall j :: i <= j < |r| ==> r[j] == s[j + 1])
      && multiset(r) + multiset{s[i]} == multiset(s)
  {
    FirstMatchCharacterized(s, key, i);
    var r := DeleteFirst(s, key);
    assert r == s[..i] + s[i + 1..];
    assert s == s[..i] + [s[i]] + s[i + 1..];
    calc {
      multiset(s);
      multiset(s[..i]) + multiset([s[i]]) + multiset(s[i + 1..]);
      multiset(r) + multiset{s[i]};
    }
  }

  /** When no data row has the key (or the sheet has no rows at all), delete changes nothing. */
  lemma DeleteFirstNoMatch(s: Sheet, key: Cell)
    requires NoMatch(s, key)
    ensures DeleteFirst(s, key) == s
  {
    FirstMatchCharacterized(s, key, 0);
  }

  /** setValues over the first |vals| columns of a row: those columns take
      the new values, columns beyond them keep their old contents. */
  function Overwrite(row: Row, vals: Row): (r: Row)
    ensures |r| == if |row| > |vals| then |row| else |vals|
    ensures r[..|vals|] == vals
    ensures forall k :: |vals| <= k < |row| ==> r[k] == row[k]
  {
    vals + (if |row| > |vals| then row[|vals|..] else [])
  }

  /** The in-place update: the first data row with the key has its leading
      columns overwritten by `vals`; with no match the sheet is unchanged. */
  function OverwriteFirst(s: Sheet, key: Cell, vals: Row): (r: Sheet)
    ensures |r| == |s|
    ensures |s| > 0 ==> r[0] == s[0]
    ensures NoMatch(s, key) ==> r == s
  {
    match FirstMatch(s, key)
    case None => s
    case Some(i) => s[i := Overwrite(s[i], vals)]
  }

  /** Update touches only the first matching row and keeps the row count. */
  lemma OverwriteFirstTouchesOne(s: Sheet, key: Cell, vals: Row, i: nat)
    requires IsFirstMatch(s, key, i)
    ensures var r := OverwriteFirst(s, key, vals);
      && |r| == |s|
      && r[i] == Overwrite(s[i], vals)
      && (forall j :: 0 <= j < |s| && j != i ==> r[j] == s[j])
  {
    FirstMatchCharacterized(s, key, i);
  }

  /** With no matching data row, update appends nothing, writes no header
      and changes no row. */
  lemma OverwriteFirstNoMatch(s: Sheet, key: Cell, vals: Row)
    requires NoMatch(s, key)
    ensures OverwriteFirst(s, key, vals) == s
  {
    FirstMatchCharacterized(s, key, 0);
  }

  /** The name-table add: lazy header, then the name as a one-cell row
      unless some data row already holds it (compared with ===). */
  function AddName(s: Sheet, header: Row, name: Cell): (r: Sheet)
    ensures |s| == 0 ==> r == [header, [name]]
    ensures |s| > 0 ==> |s| <= |r| <= |s| + 1 && forall j :: 0 <= j < |s| ==> r[j] == s[j]
  {
    var t := WithHeader(s, header);
    if FirstMatch(t, name).Some? then t else t + [[name]]
  }

  /** After an add, the name is in a data row of the table. */
  lemma AddNameHolds(s: Sheet, header: Row, name: Cell)
    ensures FirstMatch(AddName(s, header, name), name).Some?
  {
    var t := WithHeader(s, header);
    if FirstMatch(t, name).None? {
      var u := t + [[name]];
      assert KeyOf(u[|t|]) == name;
      FirstMatchCharacterized(u, name, 0);
    }
  }

  /** A name no data row holds is appended as the one-cell row [name] after
      the (possibly just written) header and every earlier row. */
  lemma AddNameAbsent(s: Sheet, header: Row, name: Cell)
    requires NoMatch(s, name)
    ensures AddName(s, header, name) == WithHeader(s, header) + [[name]]
  {
    FirstMatchCharacterized(WithHeader(s, header), name, 0);
  }

  /** A name already in a data row leaves the table unchanged. */
  lemma AddNamePresent(s: Sheet, header: Row, name: Cell)
    requires |s| > 0 && !NoMatch(s, name)
    ensures AddName(s, header, name) == s
  {
    FirstMatchCharacterized(s, name, 0);
  }

  /** Adding the same name twice is the same as adding it once. */
  lemma AddNameIdempotent(s: Sheet, header: Row, name: Cell)
    ensures AddName(AddName(s, header, name), header, name) == AddName(s, header, name)
  {
    var t := AddName(s, header, name);
    AddNameHolds(s, header, name);
    assert |t| > 0;
    FirstMatchCharacterized(t, name, 0);
    AddNamePresent(t, header, name);
  }

  /** The data rows of a name table hold pairwise different names. */
  ghost predicate DistinctKeys(s: Sheet)
  {
    forall i, j :: 1 <= i < j < |s| ==> KeyOf(s[i]) != KeyOf(s[j])
  }

  /** The duplicate check keeps the data rows' names pairwise different. */
  lemma AddNameKeepsDistinct(s: Sheet, header: Row, name: Cell)
    requires DistinctKeys(s)
    ensures DistinctKeys(AddName(s, header, name))
  {
    var t := WithHeader(s, header);
    assert DistinctKeys(t);
    if FirstMatch(t, name).None? {
      FirstMatchCharacterized(t, name, 0);
      var u := t + [[name]];
      forall i, j | 1 <= i < j < |u|
        ensures KeyOf(u[i]) != KeyOf(u[j])
      {
        if j == |t| {
          assert KeyOf(u[i]) == KeyOf(t[i]) != name;
        } else {
          assert KeyOf(u[i]) == KeyOf(t[i]) && KeyOf(u[j]) == KeyOf(t[j]);
        }
      }
    }
  }

  /** Deleting a row keeps the data rows' names pairwise different. */
  lemma DeleteFirstKeepsDistinct(s: Sheet, key: Cell)
    requires DistinctKeys(s)
    ensures DistinctKeys(DeleteFirst(s, key))
  {
    match FirstMatch(s, key)
    case None =>
    case Some(i) =>
      FirstMatchCharacterized(s, key, i);
      DeleteFirstRemovesOne(s, key, i);
      var r := DeleteFirst(s, key);
      forall a, b | 1 <= a < b < |r|
        ensures KeyOf(r[a]) != KeyOf(r[b])
      {
        var a' := if a < i then a else a + 1;
        var b' := if b < i then b else b + 1;
        assert r[a] == s[a'] && r[b] == s[b'] && 1 <= a' < b' < |s|;
      }
  }

  /** In a table whose names are pairwise different, deleting a name leaves
      no data row holding it. */
  lemma DeleteFirstRemovesName(s: Sheet, key: Cell)
    requires DistinctKeys(s)
    ensures NoMatch(DeleteFirst(s, key), key)
  {
    match FirstMatch(s, key)
    case None =>
      FirstMatchCharacterized(s, key, 0);
    case Some(i) =>
      FirstMatchCharacterized(s, key, i);
      DeleteFirstRemovesOne(s, key, i);
      var r := DeleteFirst(s, key);
      forall j | 1 <= j < |r|
        ensures KeyOf(r[j]) != key
      {
        if j >= i {
          assert r[j] == s[j + 1] && KeyOf(s[i]) != KeyOf(s[j + 1]);
        }
      }
  }
}
