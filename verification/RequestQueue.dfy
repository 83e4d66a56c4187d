/** The durable request table with its push, peek and pop operations. */
module RequestQueue {
  import opened Common
  import opened Arbitration

  datatype ParentType = ActivationParent | OtherParent(name: string)

  datatype PushOutcome = Pushed | UnknownParentType | ParentGone

  /** The table after deleting `victims` one by one. */
  function RemoveAll(rows: seq<Row>, victims: seq<Row>): seq<Row>
    decreases |victims|
  {
    if victims == [] then rows else RemoveAll(Without(rows, victims[0].id), victims[1..])
  }

  /** The table after each of those deletions. */
  function DeletionTrace(rows: seq<Row>, victims: seq<Row>): seq<seq<Row>>
    decreases |victims|
  {
    if victims == [] then []
    else [Without(rows, victims[0].id)] + DeletionTrace(Without(rows, victims[0].id), victims[1..])
  }

  lemma {:induction false} RemoveAllSnoc(rows: seq<Row>, victims: seq<Row>, v: Row)
    ensures RemoveAll(rows, victims + [v]) == Without(RemoveAll(rows, victims), v.id)
    ensures DeletionTrace(rows, victims + [v])
         == DeletionTrace(rows, victims) + [Without(RemoveAll(rows, victims), v.id)]
    decreases |victims|
  {
    if victims == [] {
      assert victims + [v] == [v] && [v][1..] == [];
    } else {
      assert (victims + [v])[1..] == victims[1..] + [v];
      RemoveAllSnoc(Without(rows, victims[0].id), victims[1..], v);
    }
  }

  /** Two tables hold the same rows for every activation but one. */
  ghost predicate SameElsewhere(a: seq<Row>, b: seq<Row>, parentId: nat) {
    forall p: nat | p != parentId :: Of(a, p) == Of(b, p)
  }

  lemma WithoutElsewhere(rows: seq<Row>, row: Row, p: nat)
    requires Increasing(rows) && row in rows
    ensures Of(Without(rows, row.id), row.parentId) == Without(Of(rows, row.parentId), row.id)
    ensures p != row.parentId ==> Of(Without(rows, row.id), p) == Of(rows, p)
  {
    FilterCommutes(rows, IdIsNot(row.id), ParentIs(row.parentId));
    if p != row.parentId {
      FilterCommutes(rows, IdIsNot(row.id), ParentIs(p));
      forall r | r in Of(rows, p) ensures r.id != row.id {
        FilterIn(rows, ParentIs(p), r);
      }
      FilterKeepsAll(Of(rows, p), IdIsNot(row.id));
    }
  }

  /** The table between two deletions of one arbitration. */
  ghost predicate Intact(before: seq<Row>, now: seq<Row>, parentId: nat, result: seq<Row>) {
    Arbitrate(Of(now, parentId)) == result && SameElsewhere(before, now, parentId)
  }

  /** All tables committed from number `base` on. */
  ghost predicate AllIntact(before: seq<Row>, commits: seq<seq<Row>>, base: nat, parentId: nat, result: seq<Row>) {
    forall k | base <= k < |commits| :: Intact(before, commits[k], parentId, result)
  }

  /** Every deletion of a pair step keeps the outcome of arbitration, whatever comes behind. */
  lemma {:induction false} Deletions(rows: seq<Row>, parentId: nat, fold: Fold, victims: seq<Row>, rest: seq<Row>)
    requires Increasing(rows) && Of(rows, parentId) == Left(fold, victims) + rest
    requires VictimsNeutral(fold, victims)
    ensures Of(RemoveAll(rows, victims), parentId) == Output(fold) + rest
    ensures Increasing(RemoveAll(rows, victims))
    ensures forall r | r in RemoveAll(rows, victims) :: r in rows
    ensures SameElsewhere(rows, RemoveAll(rows, victims), parentId)
    ensures AllIntact(rows, DeletionTrace(rows, victims), 0, parentId, Output(FoldOn(fold, rest)))
    decreases |victims|
  {
    if victims != [] {
      var v := victims[0];
      var next := Without(rows, v.id);
      assert v in Left(fold, victims) + rest;
      FilterIn(rows, ParentIs(parentId), v);
      FilterIncreasing(rows, ParentIs(parentId));
      FilterIncreasing(rows, IdIsNot(v.id));
      WithoutElsewhere(rows, v, parentId);
      DropVictim(fold, victims, rest);
      forall p: nat | p != parentId ensures Of(rows, p) == Of(next, p) {
        WithoutElsewhere(rows, v, p);
      }
      forall r | r in next ensures r in rows {
        FilterIn(rows, IdIsNot(v.id), r);
      }
      FoldAllConcat(Left(fold, victims[1..]), rest);
      Deletions(next, parentId, fold, victims[1..], rest);
      forall r | r in RemoveAll(rows, victims) ensures r in rows {
        assert r in next;
      }
    }
  }

  lemma AllIntactThen(a: seq<Row>, commits: seq<seq<Row>>, base: nat, b: seq<Row>, more: seq<seq<Row>>,
                      parentId: nat, result: seq<Row>)
    requires base <= |commits| && AllIntact(a, commits, base, parentId, result)
    requires SameElsewhere(a, b, parentId) && AllIntact(b, more, 0, parentId, result)
    ensures AllIntact(a, commits + more, base, parentId, result)
  {
  }

  /** Where the arbitration loop stands: `done` are the requests it has read, `rest` the others. */
  ghost predicate Progress(start: seq<Row>, now: seq<Row>, commits: seq<seq<Row>>, base: nat, parentId: nat,
                           done: seq<Row>, rest: seq<Row>, qualified: seq<Row>, ref: Option<Row>)
  {
    if done == [] then
      ref == None && qualified == [] && now == start && |commits| == base && Increasing(now)
          && rest == Of(now, parentId)
    else ref.Some? && TableProgress(start, now, commits, base, parentId, done, rest, Fold(qualified, ref.value))
  }

  ghost predicate TableProgress(start: seq<Row>, now: seq<Row>, commits: seq<seq<Row>>, base: nat, parentId: nat,
                                done: seq<Row>, rest: seq<Row>, fold: Fold)
  {
    && base <= |commits|
    && done != [] && FoldAll(done) == fold && Normal(fold)
    && Increasing(now) && (forall r | r in now :: r in start)
    && Of(now, parentId) == Output(fold) + rest
    && SameElsewhere(start, now, parentId)
    && AllIntact(start, commits, base, parentId, Output(FoldOn(fold, rest)))
  }

  lemma TableFirst(start: seq<Row>, commits: seq<seq<Row>>, parentId: nat, row: Row, rest: seq<Row>)
    requires Increasing(start) && Of(start, parentId) == [row] + rest
    ensures TableProgress(start, start, commits, |commits|, parentId, [row], rest, Fold([], row))
  {
    assert [row][1..] == [];
    assert [] + [row] + rest == [row] + rest;
  }

  lemma TableStep(start: seq<Row>, now: seq<Row>, commits: seq<seq<Row>>, base: nat, parentId: nat,
                  done: seq<Row>, row: Row, rest: seq<Row>, fold: Fold)
    requires TableProgress(start, now, commits, base, parentId, done, [row] + rest, fold)
    ensures TableProgress(start, RemoveAll(now, Discarded(fold, row)),
        commits + DeletionTrace(now, Discarded(fold, row)),
                          base, parentId, done + [row], rest, Resolve(fold, row))
  {
    var victims := Discarded(fold, row);
    var out := Output(fold) + [row];
    FilterIncreasing(now, ParentIs(parentId));
    assert Of(now, parentId) == out + rest;
    IncreasingPrefix(out, rest);
    PairStep(fold, row);
    FoldAllSnoc(done, row);
    ResolveHasShape(fold, row);
    FoldOnCons(fold, row, rest);
    Deletions(now, parentId, Resolve(fold, row), victims, rest);
    AllIntactThen(start, commits, base, now, DeletionTrace(now, victims), parentId, Output(FoldOn(fold, [row] + rest)));
  }

  lemma ProgressStart(start: seq<Row>, commits: seq<seq<Row>>, parentId: nat)
    requires Increasing(start)
    ensures Progress(start, start, commits, |commits|, parentId, [], Of(start, parentId), [], None)
  {
  }

  lemma ProgressEnd(start: seq<Row>, now: seq<Row>, commits: seq<seq<Row>>, base: nat, parentId: nat,
                    done: seq<Row>, qualified: seq<Row>, ref: Option<Row>)
    requires done != [] && Progress(start, now, commits, base, parentId, done, [], qualified, ref)
    ensures ref.Some? && qualified + [ref.value] == Arbitrate(done) == Of(now, parentId)
    ensures Increasing(now) && (forall r | r in now :: r in start) && SameElsewhere(start, now, parentId)
    ensures AllIntact(start, commits, base, parentId, Arbitrate(done))
  {
  }

  lemma IncreasingPrefix(a: seq<Row>, b: seq<Row>)
    requires Increasing(a + b)
    ensures Increasing(a)
  {
    assert a == (a + b)[..|a|];
  }

  lemma FoldOnCons(fold: Fold, row: Row, rest: seq<Row>)
    ensures FoldOn(fold, [row] + rest) == FoldOn(Resolve(fold, row), rest)
  {
    FoldOnConcat(fold, [row], rest);
    assert [row] == [] + [row];
    FoldOnSnoc(fold, [], row);
  }

  lemma ShortQueue(rows: seq<Row>, requests: seq<Row>, commits: seq<seq<Row>>, parentId: nat)
    requires |requests| < 2
    ensures Arbitrate(requests) == requests
    ensures SameElsewhere(rows, rows, parentId) && AllIntact(rows, commits, |commits|, parentId, requests)
  {
  }

  class RequestTable {
    /** The rows of all activations, in id order. */
    var rows: seq<Row>
    var nextId: nat
    /** The ids of the activations that exist. */
    var parents: set<nat>
    /** The table after each committed deletion, for what a crash leaves behind. */
    ghost var commits: seq<seq<Row>>

    ghost predicate Valid()
      reads this
    {
      Increasing(rows) && forall r | r in rows :: r.id < nextId
    }

    constructor (parents: set<nat>)
      ensures Valid() && rows == [] && this.parents == parents
    {
      rows, nextId, commits := [], 1, [];
      this.parents := parents;
    }

    /**
     The insert and the check of the parent are one transaction: a missing parent
     takes the insert back, but the id it drew from the sequence is gone.
     */
    method Push(parentType: ParentType, parentId: nat, request: Request, requestId: string)
      returns (outcome: PushOutcome)
      requires Valid()
      modifies this`rows, this`nextId
      ensures Valid()
      ensures outcome == if parentType != ActivationParent then UnknownParentType
                         else if parentId !in parents then ParentGone
                         else Pushed
      ensures outcome == Pushed ==>
        rows == old(rows) + [Row(old(nextId), parentId, request, requestId)] && nextId == old(nextId) + 1
      ensures outcome != Pushed ==> rows == old(rows) && nextId == old(nextId) + if outcome == ParentGone then 1 else 0
    {
      if parentType != ActivationParent {
        return UnknownParentType;
      }
      var before := rows;
      rows := rows + [Row(nextId, parentId, request, requestId)];
      nextId := nextId + 1;
      if parentId !in parents {
        rows := before;
        return ParentGone;
      }
      outcome := Pushed;
    }

    /** Fetches the pending requests of one activation; the superseded ones are deleted on the way. */
    method PeekAll(parentId: nat) returns (qualified: seq<Row>)
      requires Valid()
      modifies this`rows, this`commits
      ensures Valid()
      ensures qualified == Arbitrate(Of(old(rows), parentId))
      ensures Of(rows, parentId) == qualified
      ensures SameElsewhere(old(rows), rows, parentId)
      ensures old(commits) <= commits
      ensures AllIntact(old(rows), commits, |old(commits)|, parentId, qualified)
    {
      qualified := ArbitrateRequests(Of(rows, parentId), parentId);
    }

    method ArbitrateRequests(requests: seq<Row>, ghost parentId: nat) returns (qualified: seq<Row>)
      requires Valid() && requests == Of(rows, parentId)
      modifies this`rows, this`commits
      ensures Valid()
      ensures qualified == Arbitrate(requests)
      ensures Of(rows, parentId) == qualified
      ensures SameElsewhere(old(rows), rows, parentId)
      ensures old(commits) <= commits
      ensures AllIntact(old(rows), commits, |old(commits)|, parentId, qualified)
    {
      hide Progress, Arbitrate, AllIntact, SameElsewhere, Increasing, Of;
      if |requests| < 2 {
        ShortQueue(rows, requests, commits, parentId);
        return requests;
      }
      var ref: Option<Row> := None;
      qualified := [];
      ghost var start, base := rows, |commits|;
      ProgressStart(rows, commits, parentId);
      assert requests[..0] == [] && requests[0..] == requests;
      for i := 0 to |requests|
        invariant Progress(start, rows, commits, base, parentId, requests[..i], requests[i..], qualified, ref)
        invariant old(commits) <= commits
      {
        assert requests[i..] == [requests[i]] + requests[i + 1..];
        assert requests[..i + 1] == requests[..i] + [requests[i]];
        ref, qualified := ReadRequest(ref, requests[i], qualified, start, base, parentId,
                                      requests[..i], requests[i + 1..]);
      }
      assert requests[..|requests|] == requests && requests[|requests|..] == [];
      ProgressEnd(start, rows, commits, base, parentId, requests, qualified, ref);
      if ref.Some? {
        qualified := qualified + [ref.value];
      }
    }

    /** The body of the loop: the first request becomes the reference, any other is resolved against it. */
    method ReadRequest(ref: Option<Row>, request: Row, qualified: seq<Row>, ghost start: seq<Row>, ghost base: nat,
                       ghost parentId: nat, ghost done: seq<Row>, ghost rest: seq<Row>)
      returns (newRef: Option<Row>, newQualified: seq<Row>)
      requires Progress(start, rows, commits, base, parentId, done, [request] + rest, qualified, ref)
      modifies this`rows, this`commits
      ensures Progress(start, rows, commits, base, parentId, done + [request], rest, newQualified, newRef)
      ensures old(commits) <= commits
    {
      hide TableProgress;
      if ref.None? {
        TableFirst(rows, commits, parentId, request, rest);
        assert done + [request] == [request];
        return Some(request), qualified;
      }
      TableStep(start, rows, commits, base, parentId, done, request, rest, Fold(qualified, ref.value));
      var row;
      row, newQualified := ResolveRequestPair(ref.value, request, qualified);
      newRef := Some(row);
    }

    /** Resolves a pair of requests: returns the new reference and the new list, deleting the losers. */
    method ResolveRequestPair(ref: Row, request: Row, qualified: seq<Row>)
      returns (newRef: Row, newQualified: seq<Row>)
      modifies this`rows, this`commits
      ensures Fold(newQualified, newRef) == Resolve(Fold(qualified, ref), request)
      ensures rows == RemoveAll(old(rows), Discarded(Fold(qualified, ref), request))
      ensures commits == old(commits) + DeletionTrace(old(rows), Discarded(Fold(qualified, ref), request))
    {
      newRef, newQualified := ref, qualified;
      RemoveAllSnoc(rows, [], request);
      RemoveAllSnoc(rows, [], ref);
      assert [] + [request] == [request] && [] + [ref] == [ref];
      if ref.request == Delete || request.request == ref.request || request.request == AutoStart {
        DeleteRow(request);
        return;
      }
      if ref.request == AutoStart {
        DeleteRow(ref);
        newRef := request;
        return;
      }
      if request.request == Stop || request.request == Delete {
        newQualified := DeleteFromEnd(qualified);
        RemoveAllSnoc(old(rows), Reverse(qualified), ref);
        DeleteRow(ref);
        newRef := request;
        return;
      }
      if request.request in {Start, Restart} && ref.request in {Start, Restart} {
        DeleteRow(request);
        return;
      }
      newQualified := qualified + [ref];
      newRef := request;
    }

    /** Empties the list of kept requests from its end. */
    method DeleteFromEnd(qualified: seq<Row>) returns (left: seq<Row>)
      modifies this`rows, this`commits
      ensures left == []
      ensures rows == RemoveAll(old(rows), Reverse(qualified))
      ensures commits == old(commits) + DeletionTrace(old(rows), Reverse(qualified))
    {
      left := qualified;
      ghost var done: seq<Row> := [];
      while left != []
        invariant done + Reverse(left) == Reverse(qualified)
        invariant rows == RemoveAll(old(rows), done)
        invariant commits == old(commits) + DeletionTrace(old(rows), done)
        decreases |left|
      {
        var last := left[|left| - 1];
        left := left[..|left| - 1];
        RemoveAllSnoc(old(rows), done, last);
        DeleteRow(last);
        done := done + [last];
      }
      assert done == Reverse(qualified);
    }

    /** Each deletion is a transaction of its own. */
    method DeleteRow(row: Row)
      modifies this`rows, this`commits
      ensures rows == Without(old(rows), row.id)
      ensures commits == old(commits) + [rows]
    {
      rows := Without(rows, row.id);
      commits := commits + [rows];
    }

    /** Removes the rows of the activation up to and including `queueId`. */
    method PopUntil(parentId: nat, queueId: nat)
      requires Valid()
      modifies this`rows
      ensures Valid()
      ensures rows == Filter(old(rows), NotPopped(parentId, queueId)) && SameElsewhere(old(rows), rows, parentId)
      ensures forall r: Row | r.parentId == parentId :: r in rows <==> r in old(rows) && r.id > queueId
    {
      var keep := NotPopped(parentId, queueId);
      FilterIncreasing(rows, keep);
      forall r: Row ensures r in Filter(rows, keep) <==> r in rows && keep(r) {
        FilterIn(rows, keep, r);
      }
      forall p: nat | p != parentId ensures Of(rows, p) == Of(Filter(rows, keep), p) {
        FilterCommutes(rows, keep, ParentIs(p));
        forall r | r in Of(rows, p) ensures keep(r) {
          FilterIn(rows, ParentIs(p), r);
        }
        FilterKeepsAll(Of(rows, p), keep);
      }
      rows := Filter(rows, keep);
    }

    /** The first half of deleting an activation: all its requests go. */
    method DeleteRequestsOf(parentId: nat)
      requires Valid()
      modifies this`rows
      ensures Valid()
      ensures Of(rows, parentId) == [] && SameElsewhere(old(rows), rows, parentId)
      ensures forall r: Row :: r in rows <==> r in old(rows) && r.parentId != parentId
    {
      var keep := ParentIsNot(parentId);
      FilterIncreasing(rows, keep);
      forall r: Row ensures r in Filter(rows, keep) <==> r in rows && keep(r) {
        FilterIn(rows, keep, r);
      }
      forall p: nat | p != parentId ensures Of(rows, p) == Of(Filter(rows, keep), p) {
        FilterCommutes(rows, keep, ParentIs(p));
        forall r | r in Of(rows, p) ensures keep(r) {
          FilterIn(rows, ParentIs(p), r);
        }
        FilterKeepsAll(Of(rows, p), keep);
      }
      NoneOf(rows, parentId);
      rows := Filter(rows, keep);
    }
  }

  function ParentIsNot(parentId: nat): Row -> bool { (r: Row) => r.parentId != parentId }

  lemma NoneOf(rows: seq<Row>, parentId: nat)
    ensures Of(Filter(rows, ParentIsNot(parentId)), parentId) == []
  {
    var left := Of(Filter(rows, ParentIsNot(parentId)), parentId);
    if left != [] {
      FilterIn(Filter(rows, ParentIsNot(parentId)), ParentIs(parentId), left[0]);
      FilterIn(rows, ParentIsNot(parentId), left[0]);
    }
  }
}
