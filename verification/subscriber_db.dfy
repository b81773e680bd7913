/** The subscriber store as a value: a map from phone number to subscription
    flag, what loading a table of rows does to it, and which numbers count as
    active subscribers. The class that holds the map and updates it in place
    is App.AppContext. */
module SubscriberDb {

  /** The flag an active subscriber carries; any other string is inactive. */
  const YES := "yes"
  /** The flag written when a subscriber opts out. */
  const NO := "no"

  /** One parsed row of the subscriber table: its fields in order. */
  type Row = seq<string>

  /** Every row has a key field and a flag field; further fields are ignored. */
  predicate WellFormed(rows: seq<Row>)
  {
    forall i :: 0 <= i < |rows| ==> |rows[i]| >= 2
  }

  /** The store after writing the rows in order, each row's first field
      mapped to its second: a later row for the same key overwrites an
      earlier one. */
  function Loaded(m: map<string, string>, rows: seq<Row>): map<string, string>
    requires WellFormed(rows)
  {
    if rows == [] then m
    else
      var last := rows[|rows| - 1];
      Loaded(m, rows[..|rows| - 1])[last[0] := last[1]]
  }

  /** The keys named by some row. */
  function RowKeys(rows: seq<Row>): set<string>
    requires WellFormed(rows)
  {
    set i | 0 <= i < |rows| :: rows[i][0]
  }

  /** Row i is the last row whose key is k. */
  ghost predicate LastRowFor(rows: seq<Row>, k: string, i: int)
    requires WellFormed(rows)
  {
    0 <= i < |rows| && rows[i][0] == k &&
    forall j :: i < j < |rows| ==> rows[j][0] != k
  }

  /** The numbers whose flag is exactly "yes". */
  function ActiveSet(m: map<string, string>): set<string>
  {
    set k | k in m && m[k] == YES
  }

  /** No element occurs twice. */
  predicate Distinct(s: seq<string>)
  {
    forall i, j :: 0 <= i < j < |s| ==> s[i] != s[j]
  }

  /** Dropping the last row leaves well-formed rows whose keys are all the
      keys but possibly the last row's. */
  lemma {:induction false} RowKeysSnoc(rows: seq<Row>)
    requires WellFormed(rows) && rows != []
    ensures WellFormed(rows[..|rows| - 1])
    ensures RowKeys(rows) == RowKeys(rows[..|rows| - 1]) + {rows[|rows| - 1][0]}
  {
    var n := |rows| - 1;
    var init := rows[..n];
    forall i | 0 <= i < |init| ensures init[i] == rows[i] && |init[i]| >= 2 {
    }
    forall x | x in RowKeys(rows) ensures x in RowKeys(init) + {rows[n][0]} {
      var i :| 0 <= i < |rows| && rows[i][0] == x;
      if i < n { assert init[i] == rows[i]; }
    }
  }

  /** Loading keeps every earlier key and adds every key a row names. */
  lemma {:induction false} LoadedKeys(m: map<string, string>, rows: seq<Row>)
    requires WellFormed(rows)
    ensures Loaded(m, rows).Keys == m.Keys + RowKeys(rows)
  {
    if rows != [] {
      RowKeysSnoc(rows);
      LoadedKeys(m, rows[..|rows| - 1]);
    }
  }

  /** Every key a row names has a last row naming it. */
  lemma {:induction false} LastRowExists(rows: seq<Row>, k: string)
    requires WellFormed(rows) && k in RowKeys(rows)
    ensures exists i :: LastRowFor(rows, k, i)
  {
    var n := |rows| - 1;
    RowKeysSnoc(rows);
    if rows[n][0] == k {
      assert LastRowFor(rows, k, n);
    } else {
      var init := rows[..n];
      LastRowExists(init, k);
      var i :| LastRowFor(init, k, i);
      assert init[i] == rows[i];
      assert LastRowFor(rows, k, i);
    }
  }

  /** A key takes the flag of the last row that names it. */
  lemma {:induction false} LoadedLastRow(m: map<string, string>, rows: seq<Row>, k: string, i: int)
    requires WellFormed(rows) && LastRowFor(rows, k, i)
    ensures k in Loaded(m, rows) && Loaded(m, rows)[k] == rows[i][1]
  {
    var n := |rows| - 1;
    RowKeysSnoc(rows);
    if i < n {
      var init := rows[..n];
      assert init[i] == rows[i];
      assert LastRowFor(init, k, i);
      LoadedLastRow(m, init, k, i);
    }
  }

  /** A key no row names keeps its earlier presence and value. */
  lemma {:induction false} LoadedUnnamed(m: map<string, string>, rows: seq<Row>, k: string)
    requires WellFormed(rows) && k !in RowKeys(rows)
    ensures k in Loaded(m, rows) <==> k in m
    ensures k in m ==> Loaded(m, rows)[k] == m[k]
  {
    if rows != [] {
      RowKeysSnoc(rows);
      LoadedUnnamed(m, rows[..|rows| - 1], k);
    }
  }

  /** The worked example of a two-row table: only the "yes" row is active. */
  lemma LoadExample()
    ensures ActiveSet(Loaded(map[], [["+1555", YES], ["+1556", NO]])) == {"+1555"}
  {
    var rows := [["+1555", YES], ["+1556", NO]];
    assert rows[..1] == [["+1555", YES]];
    assert rows[..1][..0] == [];
    assert Loaded(map[], rows[..1]) == map["+1555" := YES];
    assert Loaded(map[], rows) == map["+1555" := YES, "+1556" := NO];
  }

  /** Writing a flag makes the key active exactly when the flag is "yes";
      no other key changes status. */
  lemma ActiveAfterUpsert(m: map<string, string>, k: string, v: string)
    ensures ActiveSet(m[k := v]) == if v == YES then ActiveSet(m) + {k} else ActiveSet(m) - {k}
  {
  }

  /** A sequence without repeats has as many elements as its set. */
  lemma {:induction false} DistinctCardinality(s: seq<string>)
    requires Distinct(s)
    ensures |set x | x in s| == |s|
  {
    if s != [] {
      assert Distinct(s[1..]) by {
        forall i, j | 0 <= i < j < |s[1..]| ensures s[1..][i] != s[1..][j] {
          assert s[1..][i] == s[i + 1] && s[1..][j] == s[j + 1];
        }
      }
      DistinctCardinality(s[1..]);
      assert (set x | x in s) == {s[0]} + (set x | x in s[1..]);
      assert s[0] !in s[1..] by {
        forall j | 0 <= j < |s[1..]| ensures s[1..][j] != s[0] {
          assert s[1..][j] == s[j + 1];
        }
      }
    }
  }
}
