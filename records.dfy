/** Flat output records.  A record is the Python dict `data` that each
    extractor fills key by key: an ordered sequence of (column, value)
    pairs.  Assigning an existing column overwrites its value in place;
    assigning a new column appends it, as a Python dict does. */
module Records {
  import opened Json

  type Row = seq<(string, Json)>

  /** No column occurs twice. */
  ghost predicate Distinct(cs: seq<string>) {
    forall i, j :: 0 <= i < j < |cs| ==> cs[i] != cs[j]
  }

  /** `data[k] = v`: afterwards `k` holds `v`, every other column is
      unchanged, and `k` is appended only if it was not a column yet. */
  function Put(row: Row, k: string, v: Json): (r: Row)
    ensures Lookup(r, k) == Some(v)
    ensures forall c :: c != k ==> Lookup(r, c) == Lookup(row, c)
    ensures Keys(r) == if Lookup(row, k).Some? then Keys(row) else Keys(row) + [k]
    decreases |row|
  {
    if row == [] then [(k, v)]
    else if row[0].0 == k then
      var r := [(k, v)] + row[1..];
      assert r[1..] == row[1..];
      r
    else
      var rest := Put(row[1..], k, v);
      var r := [row[0]] + rest;
      assert r[0] == row[0] && r[1..] == rest;
      assert Keys(r) == [row[0].0] + Keys(rest);
      assert Keys(row) == [row[0].0] + Keys(row[1..]);
      r
  }

  /** In a record without repeated columns, the i-th column holds the i-th
      value. */
  lemma {:induction false} LookupIndex(row: Row, i: nat)
    requires i < |row| && Distinct(Keys(row))
    ensures Lookup(row, row[i].0) == Some(row[i].1)
    decreases i
  {
    if i > 0 {
      assert Keys(row[1..]) == Keys(row)[1..];
      LookupIndex(row[1..], i - 1);
      assert row[0].0 != row[i].0 by {
        assert Keys(row)[0] != Keys(row)[i];
      }
    }
  }

  /** The record after `for key in stats.keys(): data[key] = stats[key]`. */
  function Merged(row: Row, stats: seq<(string, Json)>): Row
    decreases |stats|
  {
    if stats == [] then row
    else Merged(Put(row, stats[0].0, stats[0].1), stats[1..])
  }

  /** The copy loop itself: walks the stats object in key order and assigns
      each of its values into the record. */
  method CopyStats(row: Row, stats: seq<(string, Json)>) returns (r: Row)
    ensures r == Merged(row, stats)
  {
    r := row;
    var i := 0;
    while i < |stats|
      invariant 0 <= i <= |stats|
      invariant Merged(r, stats[i..]) == Merged(row, stats)
    {
      assert stats[i..][1..] == stats[i + 1..];
      r := Put(r, stats[i].0, stats[i].1);
      i := i + 1;
    }
    assert stats[i..] == [];
  }

  /** Every stats key ends up holding its stats value (overwriting a fixed
      column of the same name); every other column keeps its value. */
  lemma {:induction false} MergedLookup(row: Row, stats: seq<(string, Json)>, c: string)
    requires DistinctKeys(stats)
    ensures Lookup(Merged(row, stats), c) ==
              if Lookup(stats, c).Some? then Lookup(stats, c) else Lookup(row, c)
    decreases |stats|
  {
    if stats != [] {
      var rest := stats[1..];
      assert DistinctKeys(rest) by {
        forall i, j | 0 <= i < j < |rest| ensures rest[i].0 != rest[j].0 {
          assert rest[i] == stats[i + 1] && rest[j] == stats[j + 1];
        }
      }
      MergedLookup(Put(row, stats[0].0, stats[0].1), rest, c);
      if c == stats[0].0 {
        LookupKeys(rest, c);
        assert c !in Keys(rest) by {
          forall j | 0 <= j < |rest| ensures Keys(rest)[j] != c {
            assert rest[j] == stats[j + 1];
          }
        }
      }
    }
  }

  /** The columns a copy appends to a record whose columns are `have`: each
      key of `ks` that is not a column yet, in the order the keys come. */
  function NewKeys(have: seq<string>, ks: seq<string>): (r: seq<string>)
    ensures |r| <= |ks|
    ensures forall k :: k in r <==> k in ks && k !in have
    decreases |ks|
  {
    if ks == [] then []
    else if ks[0] in have then NewKeys(have, ks[1..])
    else [ks[0]] + NewKeys(have + [ks[0]], ks[1..])
  }

  /** Where the columns go: the fixed columns keep their places, and each
      stats key that was not a column yet is appended, in the order of the
      stats block; a stats key naming a fixed column keeps that column's
      place. */
  lemma {:induction false} MergedKeys(row: Row, stats: seq<(string, Json)>)
    ensures Keys(Merged(row, stats)) == Keys(row) + NewKeys(Keys(row), Keys(stats))
    decreases |stats|
  {
    if stats != [] {
      var k := stats[0].0;
      var put := Put(row, k, stats[0].1);
      MergedKeys(put, stats[1..]);
      LookupKeys(row, k);
      assert Keys(stats) == [k] + Keys(stats[1..]);
      if k !in Keys(row) {
        assert Keys(put) == Keys(row) + [k];
      }
    }
  }

  /** Column order, a corollary of `MergedKeys`: the fixed columns come
      first, in their own order. */
  lemma MergedPrefix(row: Row, stats: seq<(string, Json)>)
    ensures Keys(row) <= Keys(Merged(row, stats))
  {
    MergedKeys(row, stats);
  }

  /** The columns are exactly the fixed ones and the stats keys; a corollary
      of `MergedKeys`. */
  lemma MergedKeySet(row: Row, stats: seq<(string, Json)>, c: string)
    ensures c in Keys(Merged(row, stats)) <==> c in Keys(row) || c in Keys(stats)
  {
    MergedKeys(row, stats);
  }

  /** No column is repeated after the copy, if none was before. */
  lemma {:induction false} MergedDistinct(row: Row, stats: seq<(string, Json)>)
    requires Distinct(Keys(row))
    ensures Distinct(Keys(Merged(row, stats)))
    decreases |stats|
  {
    if stats != [] {
      var k := stats[0].0;
      var put := Put(row, k, stats[0].1);
      LookupKeys(row, k);
      assert Distinct(Keys(put));
      MergedDistinct(put, stats[1..]);
    }
  }
}
