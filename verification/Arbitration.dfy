/**
 Arbitration of pending requests: the pairwise rule that drops superseded
 requests, folded over the rows of one activation, and what that fold means.
 */
module Arbitration {

  datatype Request = Start | Stop | Restart | Delete | AutoStart

  /** A stored request. Rows are read in the order of their ids. */
  datatype Row = Row(id: nat, parentId: nat, request: Request, requestId: string)

  ghost predicate IsStart(request: Request) { request == Start || request == Restart }

  ghost predicate IsBarrier(request: Request) { request == Stop || request == Delete }

  ghost predicate Increasing(rows: seq<Row>) {
    forall i, j | 0 <= i < j < |rows| :: rows[i].id < rows[j].id
  }

  // ---------------------------------------------------------------- the fold

  /** The state of the arbitration loop: the list kept so far and the current reference. */
  datatype Fold = Fold(qualified: seq<Row>, ref: Row)

  /** What the loop returns from a state. */
  function Output(fold: Fold): seq<Row> { fold.qualified + [fold.ref] }

  /** One application of the pairwise rule. */
  function Resolve(fold: Fold, row: Row): Fold {
    if fold.ref.request == Delete || row.request == fold.ref.request || row.request == AutoStart then fold
    else if fold.ref.request == AutoStart then fold.(ref := row)
    else if row.request == Stop || row.request == Delete then Fold([], row)
    else if row.request in {Start, Restart} && fold.ref.request in {Start, Restart} then fold
    else Fold(fold.qualified + [fold.ref], row)
  }

  function Reverse(rows: seq<Row>): seq<Row> {
    if rows == [] then [] else [rows[|rows| - 1]] + Reverse(rows[..|rows| - 1])
  }

  /** The rows that one application deletes, in the order of the deletions. */
  function Discarded(fold: Fold, row: Row): seq<Row> {
    if fold.ref.request == Delete || row.request == fold.ref.request || row.request == AutoStart then [row]
    else if fold.ref.request == AutoStart then [fold.ref]
    else if row.request == Stop || row.request == Delete then Reverse(fold.qualified) + [fold.ref]
    else if row.request in {Start, Restart} && fold.ref.request in {Start, Restart} then [row]
    else []
  }

  function FoldOn(fold: Fold, rows: seq<Row>): Fold {
    if rows == [] then fold
    else Resolve(FoldOn(fold, rows[..|rows| - 1]), rows[|rows| - 1])
  }

  function FoldAll(rows: seq<Row>): Fold
    requires rows != []
  {
    FoldOn(Fold([], rows[0]), rows[1..])
  }

  function Arbitrate(rows: seq<Row>): seq<Row> {
    if rows == [] then [] else Output(FoldAll(rows))
  }

  /** The hidden normal form: at most one kept row, a Stop, and then the reference is a start. */
  ghost predicate Normal(fold: Fold) {
    fold.qualified == []
    || (|fold.qualified| == 1 && fold.qualified[0].request == Stop && IsStart(fold.ref.request))
  }

  lemma {:induction false} FoldOnSnoc(fold: Fold, rows: seq<Row>, row: Row)
    ensures FoldOn(fold, rows + [row]) == Resolve(FoldOn(fold, rows), row)
  {
    var all := rows + [row];
    assert all[..|all| - 1] == rows;
  }

  lemma {:induction false} FoldOnConcat(fold: Fold, a: seq<Row>, b: seq<Row>)
    ensures FoldOn(fold, a + b) == FoldOn(FoldOn(fold, a), b)
  {
    if b == [] {
      assert a + b == a;
    } else {
      var n := |b| - 1;
      assert a + b == (a + b[..n]) + [b[n]];
      FoldOnSnoc(fold, a + b[..n], b[n]);
      FoldOnConcat(fold, a, b[..n]);
    }
  }

  lemma {:induction false} FoldOnNormal(fold: Fold, rows: seq<Row>)
    requires Normal(fold)
    ensures Normal(FoldOn(fold, rows))
  {
    if rows != [] {
      FoldOnNormal(fold, rows[..|rows| - 1]);
    }
  }

  lemma FoldAllConcat(a: seq<Row>, b: seq<Row>)
    requires a != []
    ensures FoldAll(a + b) == FoldOn(FoldAll(a), b)
  {
    assert (a + b)[1..] == a[1..] + b;
    FoldOnConcat(Fold([], a[0]), a[1..], b);
  }

  lemma FoldAllSnoc(rows: seq<Row>, row: Row)
    requires rows != []
    ensures FoldAll(rows + [row]) == Resolve(FoldAll(rows), row)
  {
    assert (rows + [row])[1..] == rows[1..] + [row];
    FoldOnSnoc(Fold([], rows[0]), rows[1..], row);
  }

  lemma FoldAllPair(a: Row, b: Row)
    ensures FoldAll([a, b]) == Resolve(Fold([], a), b)
  {
    assert [a, b][1..] == [] + [b];
    FoldOnSnoc(Fold([], a), [], b);
  }

  /** A normal state is what folding its own output gives. */
  lemma Refold(fold: Fold)
    requires Normal(fold)
    ensures FoldAll(Output(fold)) == fold
  {
    if fold.qualified != [] {
      assert Output(fold) == [fold.qualified[0], fold.ref];
      FoldAllPair(fold.qualified[0], fold.ref);
    }
  }

  // ------------------------------------------------- incremental arbitration

  /** Arbitrating what is already arbitrated, with more rows behind it, agrees with one batch, row for row. */
  lemma ArbitrateIncremental(a: seq<Row>, b: seq<Row>)
    ensures Arbitrate(Arbitrate(a) + b) == Arbitrate(a + b)
  {
    if a == [] {
      assert Arbitrate(a) + b == a + b;
    } else {
      FoldOnNormal(Fold([], a[0]), a[1..]);
      Refold(FoldAll(a));
      FoldAllConcat(Arbitrate(a), b);
      FoldAllConcat(a, b);
    }
  }

  lemma ArbitrateIdempotent(a: seq<Row>)
    ensures Arbitrate(Arbitrate(a)) == Arbitrate(a)
  {
    ArbitrateIncremental(a, []);
    assert Arbitrate(a) + [] == Arbitrate(a) && a + [] == a;
  }

  function Kinds(rows: seq<Row>): seq<Request> {
    seq(|rows|, i requires 0 <= i < |rows| => rows[i].request)
  }

  /** All that the pairwise rule looks at: a normal state up to the identity of its rows. */
  datatype Shape = Shape(stopKept: bool, ref: Request)

  function ShapeOf(fold: Fold): Shape { Shape(fold.qualified != [], fold.ref.request) }

  ghost function ResolveShape(shape: Shape, request: Request): Shape {
    if shape.ref == Delete || request == shape.ref || request == AutoStart then shape
    else if shape.ref == AutoStart then shape.(ref := request)
    else if IsBarrier(request) then Shape(false, request)
    else if IsStart(request) && IsStart(shape.ref) then shape
    else Shape(true, request)
  }

  /** Folding the one or two requests that a state outputs. */
  ghost function ResolveOutput(shape: Shape, t: Shape): Shape {
    if t.stopKept then ResolveShape(ResolveShape(shape, Stop), t.ref) else ResolveShape(shape, t.ref)
  }

  lemma ResolveHasShape(fold: Fold, row: Row)
    requires Normal(fold)
    ensures Normal(Resolve(fold, row)) && ShapeOf(Resolve(fold, row)) == ResolveShape(ShapeOf(fold), row.request)
  {
  }

  lemma OutputHasShape(fold: Fold, t: Fold)
    requires Normal(fold) && Normal(t)
    ensures ShapeOf(FoldOn(fold, Output(t))) == ResolveOutput(ShapeOf(fold), ShapeOf(t))
  {
    FoldOnSnoc(fold, t.qualified, t.ref);
    if t.qualified == [] {
      ResolveHasShape(fold, t.ref);
    } else {
      assert t.qualified == [] + [t.qualified[0]];
      FoldOnSnoc(fold, [], t.qualified[0]);
      ResolveHasShape(fold, t.qualified[0]);
      ResolveHasShape(Resolve(fold, t.qualified[0]), t.ref);
    }
  }

  /** The finite heart of the congruence: one more request after, or inside, the right operand. */
  lemma ResolveOutputStep(shape: Shape, t: Shape, request: Request)
    requires shape.stopKept ==> IsStart(shape.ref)
    requires t.stopKept ==> IsStart(t.ref)
    ensures ResolveShape(ResolveOutput(shape, t), request) == ResolveOutput(shape, ResolveShape(t, request))
  {
  }

  /** Folding the arbitrated form of `b` instead of `b` itself leaves the kinds as they were. */
  lemma {:induction false} FoldOnKinds(fold: Fold, b: seq<Row>)
    requires Normal(fold) && b != []
    ensures ShapeOf(FoldOn(fold, b)) == ShapeOf(FoldOn(fold, Arbitrate(b)))
  {
    hide FoldOn, FoldAll, Resolve, Output, ShapeOf;
    var n := |b| - 1;
    if n == 0 {
      ArbitrateOne(b);
    } else {
      var p := b[..n];
      FoldOnKinds(fold, p);
      FoldAllSnoc(p, b[n]);
      assert b == p + [b[n]];
      FoldOnSnoc(fold, p, b[n]);
      FoldAllNormal(p);
      FoldOnNormal(fold, p);
      FoldKindsStep(fold, FoldOn(fold, p), FoldAll(p), b[n]);
    }
  }

  lemma ArbitrateOne(rows: seq<Row>)
    requires |rows| == 1
    ensures Arbitrate(rows) == rows
  {
  }

  lemma FoldAllNormal(rows: seq<Row>)
    requires rows != []
    ensures Normal(FoldAll(rows))
  {
    FoldOnNormal(Fold([], rows[0]), rows[1..]);
  }

  lemma FoldKindsStep(fold: Fold, f: Fold, t: Fold, row: Row)
    requires Normal(fold) && Normal(f) && Normal(t)
    requires ShapeOf(f) == ShapeOf(FoldOn(fold, Output(t)))
    ensures ShapeOf(Resolve(f, row)) == ShapeOf(FoldOn(fold, Output(Resolve(t, row))))
  {
    ResolveHasShape(f, row);
    ResolveHasShape(t, row);
    OutputHasShape(fold, t);
    OutputHasShape(fold, Resolve(t, row));
    ResolveOutputStep(ShapeOf(fold), ShapeOf(t), row.request);
  }

  lemma ShapeFixesKinds(f: Fold, g: Fold)
    requires Normal(f) && Normal(g) && ShapeOf(f) == ShapeOf(g)
    ensures Kinds(Output(f)) == Kinds(Output(g))
  {
  }

  /** On kinds, arbitration is a congruence on both sides. */
  lemma ArbitrateCongruence(a: seq<Row>, b: seq<Row>)
    ensures Kinds(Arbitrate(a + b)) == Kinds(Arbitrate(Arbitrate(a) + Arbitrate(b)))
  {
    ArbitrateIncremental(a, Arbitrate(b));
    if a == [] {
      assert a + b == b && a + Arbitrate(b) == Arbitrate(b);
      ArbitrateIdempotent(b);
    } else if b == [] {
      assert Arbitrate(b) == b;
    } else {
      FoldAllConcat(a, b);
      FoldAllConcat(a, Arbitrate(b));
      FoldOnNormal(Fold([], a[0]), a[1..]);
      FoldOnKinds(FoldAll(a), b);
      FoldOnNormal(FoldAll(a), b);
      FoldOnNormal(FoldAll(a), Arbitrate(b));
      ShapeFixesKinds(FoldOn(FoldAll(a), b), FoldOn(FoldAll(a), Arbitrate(b)));
    }
  }

  /** On rows it is not: the Stop that survives may differ. */
  lemma CongruenceIsOnlyOnKinds(first: Row, start: Row, second: Row)
    requires first.request == Stop && start.request == Start && second.request == Stop
    ensures Arbitrate([first] + [start, second]) == [second]
    ensures Arbitrate(Arbitrate([first]) + Arbitrate([start, second])) == [first]
  {
    assert [first] + [start, second] == [first, start] + [second];
    FoldAllPair(first, start);
    FoldAllSnoc([first, start], second);
    FoldAllPair(start, second);
    FoldAllPair(first, second);
    assert [first] + [second] == [first, second];
  }

  // ----------------------------------------------------------- closed form

  ghost predicate NoDelete(rows: seq<Row>) { forall j | 0 <= j < |rows| :: rows[j].request != Delete }

  ghost predicate StartBetween(rows: seq<Row>, i: int, j: int)
    requires -1 <= i && j <= |rows|
  {
    exists k :: i < k < j && IsStart(rows[k].request)
  }

  ghost predicate StopBetween(rows: seq<Row>, i: int, j: int)
    requires -1 <= i && j <= |rows|
  {
    exists k :: i < k < j && rows[k].request == Stop
  }

  /**
   Which row of the input survives, said without the loop: the first Delete, and
   then nothing else; the earliest Stop with no start between it and the last
   Stop; a start that no Stop follows and that has no other start before it
   since the last Stop; an AutoStart only when nothing else was asked for.
   */
  ghost predicate Survives(rows: seq<Row>, i: nat)
    requires i < |rows|
  {
    match rows[i].request
    case Delete => forall j | 0 <= j < i :: rows[j].request != Delete
    case AutoStart => i == 0 && forall j | 0 <= j < |rows| :: rows[j].request == AutoStart
    case Stop =>
      && NoDelete(rows)
      && (forall j | i < j < |rows| && rows[j].request == Stop :: !StartBetween(rows, i, j))
      && (forall j | 0 <= j < i && rows[j].request == Stop :: StartBetween(rows, j, i))
    case _ =>
      && NoDelete(rows)
      && !StopBetween(rows, i, |rows|)
      && (forall j | 0 <= j < i && IsStart(rows[j].request) :: StopBetween(rows, j, i))
  }

  /** The surviving rows among the first `n`, in order. */
  ghost function Survivors(rows: seq<Row>, n: nat): seq<Row>
    requires n <= |rows|
  {
    if n == 0 then []
    else Survivors(rows, n - 1) + if Survives(rows, n - 1) then [rows[n - 1]] else []
  }

  /** Where the loop's state sits in the input it has read. */
  ghost predicate Placed(rows: seq<Row>, q: seq<nat>, m: nat) {
    m < |rows| &&
    match rows[m].request
    case Delete => q == [] && forall j | 0 <= j < m :: rows[j].request != Delete
    case AutoStart => q == [] && m == 0 && forall j | 0 <= j < |rows| :: rows[j].request == AutoStart
    case Stop =>
      && q == [] && NoDelete(rows) && !StartBetween(rows, m, |rows|)
      && (forall j | 0 <= j < m && rows[j].request == Stop :: StartBetween(rows, j, m))
    case _ =>
      && NoDelete(rows) && !StopBetween(rows, m, |rows|)
      && (|| (q == [] && !StopBetween(rows, -1, m) && !StartBetween(rows, -1, m))
          || (&& |q| == 1 && q[0] < m && rows[q[0]].request == Stop
              && !StartBetween(rows, q[0], m)
              && (forall j | 0 <= j < q[0] && rows[j].request == Stop :: StartBetween(rows, j, q[0]))))
  }

  ghost function At(rows: seq<Row>, q: seq<nat>): seq<Row>
    requires forall i | 0 <= i < |q| :: q[i] < |rows|
  {
    seq(|q|, i requires 0 <= i < |q| => rows[q[i]])
  }

  lemma PlacedSurvives(rows: seq<Row>, q: seq<nat>, m: nat, i: nat)
    requires Placed(rows, q, m) && i < |rows|
    ensures Survives(rows, i) <==> i == m || i in q
  {
    match rows[m].request
    case Delete =>
    case AutoStart =>
    case Stop =>
      if i != m {
        if i < m && rows[i].request == Stop { assert StartBetween(rows, i, m); }
        if i > m && rows[i].request == Stop { assert !StartBetween(rows, m, i); }
      }
    case _ =>
      if q != [] {
        var s := q[0];
        if i == m {
          forall j | 0 <= j < i && IsStart(rows[j].request)
            ensures StopBetween(rows, j, i)
          {
            assert j < s < i;
          }
        }
        if i < s && rows[i].request == Stop { assert StartBetween(rows, i, s); }
        if s < i && rows[i].request == Stop { assert i < m && !StartBetween(rows, s, i); }
      }
  }

  /** Extending the input by one row moves the placement as the pairwise rule says. */
  lemma PlacedStep(rows: seq<Row>, q: seq<nat>, m: nat, row: Row) returns (q': seq<nat>, m': nat)
    requires Placed(rows, q, m)
    ensures Placed(rows + [row], q', m')
    ensures Resolve(Fold(At(rows, q), rows[m]), row) == Fold(At(rows + [row], q'), (rows + [row])[m'])
  {
    var n := |rows|;
    var all := rows + [row];
    var ref := rows[m].request;
    forall i, j | -1 <= i && j <= n
      ensures StartBetween(all, i, j) == StartBetween(rows, i, j)
      ensures StopBetween(all, i, j) == StopBetween(rows, i, j)
    {
      if StartBetween(rows, i, j) {
        var k :| i < k < j && IsStart(rows[k].request);
        assert IsStart(all[k].request);
      }
      if StartBetween(all, i, j) {
        var k :| i < k < j && IsStart(all[k].request);
        assert IsStart(rows[k].request);
      }
      if StopBetween(rows, i, j) {
        var k :| i < k < j && rows[k].request == Stop;
        assert all[k].request == Stop;
      }
      if StopBetween(all, i, j) {
        var k :| i < k < j && all[k].request == Stop;
        assert rows[k].request == Stop;
      }
    }
    q', m' := q, m;
    if ref == Delete || row.request == ref || row.request == AutoStart {
    } else if ref == AutoStart {
      m' := n;
    } else if IsBarrier(row.request) {
      q', m' := [], n;
      if row.request == Stop {
        forall j | 0 <= j < n && all[j].request == Stop
          ensures StartBetween(all, j, n)
        {
          assert rows[j].request == Stop && IsStart(all[m].request);
        }
      }
    } else if IsStart(row.request) && IsStart(ref) {
    } else {
      q', m' := [m], n;
    }
  }

  lemma {:induction false} PlaceFold(rows: seq<Row>) returns (q: seq<nat>, m: nat)
    requires rows != []
    ensures Placed(rows, q, m)
    ensures FoldAll(rows) == Fold(At(rows, q), rows[m])
  {
    var n := |rows| - 1;
    if n == 0 {
      q, m := [], 0;
    } else {
      var q0, m0 := PlaceFold(rows[..n]);
      assert rows == rows[..n] + [rows[n]];
      q, m := PlacedStep(rows[..n], q0, m0, rows[n]);
      FoldAllSnoc(rows[..n], rows[n]);
    }
  }

  lemma {:induction false} SurvivorsOf(rows: seq<Row>, q: seq<nat>, m: nat, n: nat)
    requires Placed(rows, q, m) && n <= |rows|
    ensures Survivors(rows, n)
         == (if q != [] && q[0] < n then [rows[q[0]]] else []) + (if m < n then [rows[m]] else [])
  {
    if n > 0 {
      SurvivorsOf(rows, q, m, n - 1);
      PlacedSurvives(rows, q, m, n - 1);
    }
  }

  /** Arbitration keeps exactly the rows that survive, in order, and never more than two. */
  lemma ArbitrateClosedForm(rows: seq<Row>)
    ensures Arbitrate(rows) == Survivors(rows, |rows|)
    ensures |Arbitrate(rows)| <= 2
  {
    if rows != [] {
      var q, m := PlaceFold(rows);
      SurvivorsOf(rows, q, m, |rows|);
    }
  }

  /** A Delete anywhere takes everything: only the first one is left. */
  lemma DeleteTakesAll(rows: seq<Row>, d: nat)
    requires d < |rows| && rows[d].request == Delete
    ensures |Arbitrate(rows)| == 1 && Arbitrate(rows)[0].request == Delete
    ensures exists i | 0 <= i <= d :: Arbitrate(rows)[0] == rows[i]
  {
    var q, m := PlaceFold(rows);
    assert !NoDelete(rows);
  }

  /** A Stop or Delete anywhere: the first request served is a Stop or a Delete. */
  lemma BarrierComesFirst(rows: seq<Row>, b: nat)
    requires b < |rows| && IsBarrier(rows[b].request)
    ensures Arbitrate(rows) != [] && IsBarrier(Arbitrate(rows)[0].request)
  {
    var q, m := PlaceFold(rows);
    if IsStart(rows[m].request) && q == [] {
      assert rows[b].request == Stop && (StopBetween(rows, -1, m) || StopBetween(rows, m, |rows|));
    }
  }

  // -------------------------------------------- deletions in progress

  /** What remains of the rows read so far while `victims` wait to be deleted one by one. */
  function Left(fold: Fold, victims: seq<Row>): seq<Row> {
    if victims != [] && victims[0].id > fold.ref.id then Output(fold) + victims else victims + Output(fold)
  }

  /** However many of the victims are already gone, folding the rest again gives the same state. */
  ghost predicate VictimsNeutral(fold: Fold, victims: seq<Row>) {
    FoldAll(Left(fold, victims)) == fold && (victims != [] ==> VictimsNeutral(fold, victims[1..]))
  }

  lemma PairStep(fold: Fold, row: Row)
    requires Normal(fold) && Increasing(Output(fold) + [row])
    ensures Left(Resolve(fold, row), Discarded(fold, row)) == Output(fold) + [row]
    ensures VictimsNeutral(Resolve(fold, row), Discarded(fold, row))
  {
    var next, victims := Resolve(fold, row), Discarded(fold, row);
    var all := Output(fold) + [row];
    var k := |fold.qualified|;
    assert all[k] == fold.ref && all[k + 1] == row;
    Refold(fold);
    FoldAllSnoc(Output(fold), row);
    ResolveHasShape(fold, row);
    Refold(next);
    if victims != [] && fold.ref.request != Delete && row.request != fold.ref.request && row.request != AutoStart
      && fold.ref.request != AutoStart && IsBarrier(row.request) && k == 1
    {
      assert all[0] == fold.qualified[0];
      assert fold.qualified[..|fold.qualified| - 1] == [];
      assert Reverse(fold.qualified) == [fold.qualified[0]];
      assert victims == [fold.qualified[0], fold.ref];
      assert victims[1..] == [fold.ref];
      assert Left(next, [fold.ref]) == [fold.ref, row];
      FoldAllPair(fold.ref, row);
      assert VictimsNeutral(next, []);
      assert victims[1..][1..] == [];
      assert VictimsNeutral(next, victims[1..]);
    } else if victims != [] {
      assert victims[1..] == [];
      assert VictimsNeutral(next, []);
      assert Left(next, victims) == all;
    }
  }

  // ------------------------------------------------------------- filtering

  function Filter(rows: seq<Row>, keep: Row -> bool): seq<Row> {
    if rows == [] then []
    else (if keep(rows[0]) then [rows[0]] else []) + Filter(rows[1..], keep)
  }

  function ParentIs(parentId: nat): Row -> bool { (r: Row) => r.parentId == parentId }

  function IdIsNot(id: nat): Row -> bool { (r: Row) => r.id != id }

  function NotPopped(parentId: nat, queueId: nat): Row -> bool {
    (r: Row) => !(r.parentId == parentId && r.id <= queueId)
  }

  /** The rows of one activation. */
  function Of(rows: seq<Row>, parentId: nat): seq<Row> { Filter(rows, ParentIs(parentId)) }

  function Without(rows: seq<Row>, id: nat): seq<Row> { Filter(rows, IdIsNot(id)) }

  lemma {:induction false} FilterConcat(a: seq<Row>, b: seq<Row>, keep: Row -> bool)
    ensures Filter(a + b, keep) == Filter(a, keep) + Filter(b, keep)
  {
    if a == [] {
      assert a + b == b;
    } else {
      var first := if keep(a[0]) then [a[0]] else [];
      assert (a + b)[1..] == a[1..] + b && (a + b)[0] == a[0];
      FilterConcat(a[1..], b, keep);
      assert first + (Filter(a[1..], keep) + Filter(b, keep)) == first + Filter(a[1..], keep) + Filter(b, keep);
    }
  }

  lemma {:induction false} FilterIn(rows: seq<Row>, keep: Row -> bool, row: Row)
    ensures row in Filter(rows, keep) <==> row in rows && keep(row)
  {
    if rows != [] {
      FilterIn(rows[1..], keep, row);
    }
  }

  lemma {:induction false} FilterCommutes(rows: seq<Row>, f: Row -> bool, g: Row -> bool)
    ensures Filter(Filter(rows, f), g) == Filter(Filter(rows, g), f)
  {
    if rows != [] {
      FilterCommutes(rows[1..], f, g);
      FilterConcat(if f(rows[0]) then [rows[0]] else [], Filter(rows[1..], f), g);
      FilterConcat(if g(rows[0]) then [rows[0]] else [], Filter(rows[1..], g), f);
      assert rows[0..1] == [rows[0]];
      FilterOne(rows[0], f);
      FilterOne(rows[0], g);
    }
  }

  lemma FilterOne(row: Row, keep: Row -> bool)
    ensures Filter([row], keep) == if keep(row) then [row] else []
  {
    assert [row][1..] == [];
  }

  lemma {:induction false} FilterKeepsAll(rows: seq<Row>, keep: Row -> bool)
    requires forall r | r in rows :: keep(r)
    ensures Filter(rows, keep) == rows
  {
    if rows != [] {
      assert rows[0] in rows;
      FilterKeepsAll(rows[1..], keep);
    }
  }

  lemma {:induction false} FilterIncreasing(rows: seq<Row>, keep: Row -> bool)
    requires Increasing(rows)
    ensures Increasing(Filter(rows, keep))
  {
    if rows != [] {
      FilterIncreasing(rows[1..], keep);
      forall j | 0 <= j < |Filter(rows[1..], keep)|
        ensures rows[0].id < Filter(rows[1..], keep)[j].id
      {
        FilterIn(rows[1..], keep, Filter(rows[1..], keep)[j]);
      }
    }
  }

  /** Deleting the row in the middle of an increasing table. */
  lemma WithoutMiddle(a: seq<Row>, row: Row, b: seq<Row>)
    requires Increasing(a + [row] + b)
    ensures Without(a + [row] + b, row.id) == a + b
  {
    var all := a + [row] + b;
    assert all[|a|] == row;
    forall r | r in a ensures r.id != row.id {
      var i :| 0 <= i < |a| && a[i] == r;
      assert all[i] == r;
    }
    forall r | r in b ensures r.id != row.id {
      var i :| 0 <= i < |b| && b[i] == r;
      assert all[|a| + 1 + i] == r;
    }
    FilterConcat(a + [row], b, IdIsNot(row.id));
    FilterConcat(a, [row], IdIsNot(row.id));
    FilterOne(row, IdIsNot(row.id));
    FilterKeepsAll(a, IdIsNot(row.id));
    FilterKeepsAll(b, IdIsNot(row.id));
  }

  /** Deleting the next victim. */
  lemma DropVictim(fold: Fold, victims: seq<Row>, rest: seq<Row>)
    requires victims != [] && Increasing(Left(fold, victims) + rest)
    ensures Without(Left(fold, victims) + rest, victims[0].id) == Left(fold, victims[1..]) + rest
  {
    var out := Output(fold);
    var all := Left(fold, victims) + rest;
    var v := victims[0];
    if v.id > fold.ref.id {
      assert all == out + [v] + (victims[1..] + rest);
      WithoutMiddle(out, v, victims[1..] + rest);
      if |victims| > 1 {
        assert all[|out|] == v && all[|out| + 1] == victims[1];
      }
      assert Left(fold, victims[1..]) + rest == out + (victims[1..] + rest);
    } else {
      assert all == [] + [v] + (victims[1..] + out + rest);
      WithoutMiddle([], v, victims[1..] + out + rest);
      if |victims| > 1 {
        assert all[1] == victims[1] && all[|victims| + |out| - 1] == fold.ref;
      }
      assert Left(fold, victims[1..]) + rest == [] + (victims[1..] + out + rest);
    }
  }
}
