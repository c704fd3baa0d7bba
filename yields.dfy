/** What the body of an extractor's loop produces for one game.

    In the source every extractor is a generator: for one game it yields
    records one by one, and it may raise part-way (a missing key, a value
    of the wrong shape), which ends that game's contribution.  A `Yield` is
    the records yielded so far together with whether the body ran to its
    end.  A record is yielded only once it is complete, so a failure while
    building a record drops that record and keeps the earlier ones. */
module Yields {
  import opened Json
  import opened Records

  datatype Yield = Yield(rows: seq<Row>, completed: bool)

  /** A body that yields nothing and finishes. */
  const Done: Yield := Yield([], true)

  /** A body that raises before yielding anything. */
  const Raised: Yield := Yield([], false)

  /** Run `a`, and then `b` unless `a` raised. */
  function Then(a: Yield, b: Yield): Yield {
    if a.completed then Yield(a.rows + b.rows, b.completed) else a
  }

  lemma ThenAssoc(a: Yield, b: Yield, c: Yield)
    ensures Then(Then(a, b), c) == Then(a, Then(b, c))
  {
    if a.completed && b.completed {
      assert (a.rows + b.rows) + c.rows == a.rows + (b.rows + c.rows);
    }
  }

  /** One more step of a loop body after the records `rows`: a step that
      raises ends the body with the records so far and its own. */
  lemma ThenStep(rows: seq<Row>, e: Yield, rest: Yield)
    ensures Then(Yield(rows, true), Then(e, rest)) ==
      if e.completed then Then(Yield(rows + e.rows, true), rest) else Yield(rows + e.rows, false)
  {
    if e.completed {
      assert (rows + e.rows) + rest.rows == rows + (e.rows + rest.rows);
    }
  }

  /** `yield(data)` for a record whose construction may raise. */
  function Emit(r: Option<Row>): Yield {
    match r
    case None => Raised
    case Some(row) => Yield([row], true)
  }

  /** Building and yielding the records `rs[0]`, `rs[1]`, ... in turn,
      stopping at the first that cannot be built. */
  function EmitAll(rs: seq<Option<Row>>): Yield
    decreases |rs|
  {
    if rs == [] then Done else Then(Emit(rs[0]), EmitAll(rs[1..]))
  }

  /** The records yielded are the buildable prefix of `rs`, in order; the
      body finishes exactly when every record was built, and otherwise it
      stopped at the first record that could not be built. */
  lemma {:induction false} EmitAllRows(rs: seq<Option<Row>>)
    ensures var y := EmitAll(rs);
      |y.rows| <= |rs| &&
      (forall k :: 0 <= k < |y.rows| ==> rs[k] == Some(y.rows[k])) &&
      (y.completed <==> |y.rows| == |rs|) &&
      (!y.completed ==> rs[|y.rows|].None?)
    decreases |rs|
  {
    if rs != [] {
      EmitAllRows(rs[1..]);
      var rest := EmitAll(rs[1..]);
      var y := EmitAll(rs);
      if rs[0].Some? {
        assert y.rows == [rs[0].value] + rest.rows;
        forall k | 1 <= k < |y.rows| ensures rs[k] == Some(y.rows[k]) {
          assert y.rows[k] == rest.rows[k - 1];
          assert rs[k] == rs[1..][k - 1];
        }
      }
    }
  }

  /** Two records in turn: the first is kept when the second cannot be
      built, and neither when the first cannot. */
  lemma EmitPair(a: Option<Row>, b: Option<Row>)
    ensures var y := EmitAll([a, b]);
      |y.rows| <= 2 &&
      (y.completed <==> a.Some? && b.Some?) &&
      (a.None? ==> y.rows == []) &&
      (a.Some? && b.None? ==> y.rows == [a.value]) &&
      (a.Some? && b.Some? ==> y.rows == [a.value, b.value])
  {
    assert [a, b][1..] == [b] && [b][1..] == [];
    assert EmitAll([b]) == Then(Emit(b), Done);
    assert EmitAll([a, b]) == Then(Emit(a), EmitAll([b]));
  }

  /** Records built one at a time by a loop: finishing the loop from the
      i-th record on after the records already yielded is the whole loop. */
  lemma EmitAllStep(rs: seq<Option<Row>>, i: nat)
    requires i < |rs|
    ensures EmitAll(rs[i..]) == Then(Emit(rs[i]), EmitAll(rs[i + 1..]))
  {
    assert rs[i..][0] == rs[i] && rs[i..][1..] == rs[i + 1..];
  }
}
