/** Facts about the fixed square lookup tables the fighter kinds use. */
module Tables {

  /** Every entry of `row` is one of `allowed`. */
  predicate RowWithin(row: seq<int>, allowed: set<int>)
  {
    forall x :: x in row ==> x in allowed
  }

  /** An `n` by `n` table whose entries are all in `allowed`. */
  predicate SquareWithin(table: seq<seq<int>>, n: nat, allowed: set<int>)
  {
    |table| == n && forall row :: row in table ==> |row| == n && RowWithin(row, allowed)
  }

  /** An entry of such a table can be looked up at any pair of indices below `n`, and it is allowed. */
  lemma EntryWithin(table: seq<seq<int>>, n: nat, allowed: set<int>, i: nat, j: nat)
    requires SquareWithin(table, n, allowed) && i < n && j < n
    ensures |table[i]| == n && table[i][j] in allowed
  {
    var row := table[i];
    assert row in table;
    assert forall x :: x in row ==> x in allowed;
    assert row[j] in allowed;
  }
}
