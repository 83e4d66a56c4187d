/** Sending an event over a notify channel, in chunks when it is too long for one message. */
module PgNotify {
  /** One message: the whole payload, or one numbered piece with what the receiver needs to put it together. */
  datatype Message =
    | Whole(payload: string)
    | Chunk(uuid: string, count: nat, length: nat, sequence: nat, chunk: string)

  /** The pieces of a payload, each but the last of the full size. */
  function Split(payload: string, max: nat): (pieces: seq<string>)
    requires max > 0
    decreases |payload|
  {
    if payload == [] then []
    else if |payload| <= max then [payload]
    else [payload[..max]] + Split(payload[max..], max)
  }

  function Numbered(uuid: string, count: nat, length: nat, from: nat, pieces: seq<string>): (r: seq<Message>)
    ensures |r| == |pieces|
    ensures forall i | 0 <= i < |r| :: r[i] == Chunk(uuid, count, length, from + i, pieces[i])
  {
    seq(|pieces|, i requires 0 <= i < |pieces| => Chunk(uuid, count, length, from + i, pieces[i]))
  }

  /** The count that every chunk carries. */
  function Advertised(length: nat, max: nat): nat
    requires max > 0
  {
    length / max + 1
  }

  function Min(a: nat, b: nat): nat { if a < b then a else b }

  class Channel {
    var sent: seq<Message>

    constructor ()
      ensures sent == []
    {
      sent := [];
    }

    method Execute(m: Message)
      modifies this
      ensures sent == old(sent) + [m]
    {
      sent := sent + [m];
    }

    /** Sends the payload; one record is refilled for every chunk. */
    method Notify(payload: string, max: nat, uuid: string)
      requires max > 0
      modifies this
      ensures sent == old(sent) +
        if |payload| < max then [Whole(payload)]
        else Numbered(uuid, Advertised(|payload|, max), |payload|, 1, Split(payload, max))
    {
      var length := |payload|;
      if length < max {
        Execute(Whole(payload));
        return;
      }
      var chunked := Chunk(uuid, length / max + 1, length, 0, "");
      var sequence := 1;
      var i := 0;
      ghost var done: seq<string> := [];
      assert payload[0..] == payload;
      while i < length
        invariant 0 <= i
        invariant done + Split(payload[Min(i, length)..], max) == Split(payload, max)
        invariant sequence == |done| + 1
        invariant chunked.Chunk? && chunked == Chunk(uuid, length / max + 1, length, chunked.sequence, chunked.chunk)
        invariant sent == old(sent) + Numbered(uuid, length / max + 1, length, 1, done)
        decreases length - i
      {
        SplitNext(payload, max, i, done);
        chunked := chunked.(chunk := payload[i..Min(i + max, length)]);
        chunked := chunked.(sequence := sequence);
        sequence := sequence + 1;
        NumberedNext(uuid, length / max + 1, length, done, chunked.chunk, old(sent));
        Execute(chunked);
        done := done + [chunked.chunk];
        i := i + max;
      }
      assert done == Split(payload, max);
    }
  }

  lemma SplitNext(payload: string, max: nat, i: nat, done: seq<string>)
    requires max > 0 && i < |payload| && done + Split(payload[i..], max) == Split(payload, max)
    ensures done + [payload[i..Min(i + max, |payload|)]] + Split(payload[Min(i + max, |payload|)..], max)
        == Split(payload, max)
  {
    var rest := payload[i..];
    if |rest| <= max {
      assert payload[i..|payload|] == rest && payload[|payload|..] == [];
    } else {
      assert rest[max..] == payload[i + max..] && rest[..max] == payload[i..i + max];
      assert done + ([rest[..max]] + Split(rest[max..], max)) == done + [rest[..max]] + Split(rest[max..], max);
    }
  }

  lemma NumberedNext(uuid: string, count: nat, length: nat, done: seq<string>, piece: string, before: seq<Message>)
    ensures before + Numbered(uuid, count, length, 1, done + [piece])
         == before + Numbered(uuid, count, length, 1, done) + [Chunk(uuid, count, length, |done| + 1, piece)]
  {
  }

  // ------------------------------------------------- what is sent

  function Joined(pieces: seq<string>): string {
    if pieces == [] then "" else pieces[0] + Joined(pieces[1..])
  }

  lemma {:induction false} SplitJoins(payload: string, max: nat)
    requires max > 0
    ensures Joined(Split(payload, max)) == payload
    decreases |payload|
  {
    if |payload| > max {
      SplitJoins(payload[max..], max);
      assert Split(payload, max)[1..] == Split(payload[max..], max);
      assert payload == payload[..max] + payload[max..];
    } else if payload != [] {
      assert Split(payload, max)[1..] == [];
    }
  }

  /** No piece is empty or too long, and only the last may be short. */
  lemma {:induction false} PieceSizes(payload: string, max: nat, i: nat)
    requires max > 0 && i < |Split(payload, max)|
    ensures 0 < |Split(payload, max)[i]| <= max
    ensures i + 1 < |Split(payload, max)| ==> |Split(payload, max)[i]| == max
    decreases i
  {
    if i > 0 {
      PieceSizes(payload[max..], max, i - 1);
    } else if |payload| > max {
      assert Split(payload, max)[0] == payload[..max];
    }
  }

  lemma DivNext(a: nat, max: nat)
    requires max > 0 && a >= max
    ensures (a - max) / max == a / max - 1 && (a - max) % max == a % max
  {
    assert a == max * (a / max) + a % max;
    var q, r := a / max - 1, a % max;
    assert a - max == max * q + r;
    DivUnique(a - max, max, q, r);
  }

  lemma DivUnique(a: nat, max: nat, q: int, r: nat)
    requires max > 0 && a == max * q + r && r < max
    ensures a / max == q && a % max == r
  {
    var q0, r0 := a / max, a % max;
    assert a == max * q0 + r0;
    Distribute(max, q, q0);
    if q > q0 {
      AtLeastOnce(max, q - q0);
    } else if q < q0 {
      Distribute(max, q0, q);
      AtLeastOnce(max, q0 - q);
    }
  }

  lemma Distribute(m: int, x: int, y: int)
    ensures m * x == m * y + m * (x - y)
  {
  }

  lemma AtLeastOnce(m: nat, x: nat)
    requires x >= 1
    ensures m * x >= m
  {
  }

  /** There are as many pieces as the length needs: its quotient, rounded up. */
  lemma {:induction false} PieceCount(payload: string, max: nat)
    requires max > 0
    ensures |Split(payload, max)| == |payload| / max + if |payload| % max == 0 then 0 else 1
    decreases |payload|
  {
    if |payload| > max {
      PieceCount(payload[max..], max);
      DivNext(|payload|, max);
    } else if |payload| == max {
      DivUnique(|payload|, max, 1, 0);
    } else {
      DivUnique(|payload|, max, 0, |payload|);
    }
  }

  /**
   The advertised count is never too low, and right exactly when the size does not divide the
   length; else it is one too many.
   */
  lemma {:induction false} AdvertisedCount(payload: string, max: nat)
    requires 0 < max <= |payload|
    ensures var n, count := |Split(payload, max)|, Advertised(|payload|, max);
      && n <= count <= n + 1
      && (count == n <==> |payload| % max != 0)
  {
    PieceCount(payload, max);
  }

  // ------------------------------------------------- putting it together again

  /** The piece that a receiver has under a number. */
  function PieceOf(received: seq<Message>, k: nat): string {
    if received == [] then ""
    else if received[0].Chunk? && received[0].sequence == k then received[0].chunk
    else PieceOf(received[1..], k)
  }

  /** The pieces numbered from `k` up to `n`, in order of their numbers. */
  function Reassemble(received: seq<Message>, k: nat, n: nat): string
    decreases n + 1 - k
  {
    if k > n then "" else PieceOf(received, k) + Reassemble(received, k + 1, n)
  }

  lemma {:induction false} PieceFound(received: seq<Message>, k: nat, m: Message)
    requires m in received && m.Chunk? && m.sequence == k
    requires forall x | x in received :: x.Chunk? && (x.sequence == k ==> x == m)
    ensures PieceOf(received, k) == m.chunk
  {
    if received[0] == m {
    } else {
      PieceFound(received[1..], k, m);
    }
  }

  /**
   Whatever the order in which the chunks arrive, putting them in the order of their numbers gives
   the payload back.
   */
  lemma ArrivalOrderIsIrrelevant(payload: string, max: nat, uuid: string, received: seq<Message>)
    requires 0 < max <= |payload|
    requires multiset(received) == multiset(Numbered(uuid, Advertised(|payload|, max), |payload|, 1,
        Split(payload, max)))
    ensures Reassemble(received, 1, |received|) == payload
  {
    hide Split, Joined, Reassemble, Numbered, Advertised;
    var pieces := Split(payload, max);
    SameElements(received, Numbered(uuid, Advertised(|payload|, max), |payload|, 1, pieces));
    FromPiece(received, uuid, Advertised(|payload|, max), |payload|, pieces, 0);
    assert pieces[0..] == pieces;
    SplitJoins(payload, max);
  }

  lemma SameElements(received: seq<Message>, sent: seq<Message>)
    requires multiset(received) == multiset(sent)
    ensures |received| == |sent| && forall m :: m in received <==> m in sent
  {
    assert |received| == |multiset(received)| && |sent| == |multiset(sent)|;
    forall m ensures m in received <==> m in sent {
      assert m in multiset(received) <==> m in multiset(sent);
    }
  }

  lemma {:induction false} FromPiece(received: seq<Message>, uuid: string, count: nat, length: nat,
                                     pieces: seq<string>, i: nat)
    requires i <= |pieces| && forall m :: m in received <==> m in Numbered(uuid, count, length, 1, pieces)
    ensures Reassemble(received, i + 1, |pieces|) == Joined(pieces[i..])
    decreases |pieces| - i
  {
    if i < |pieces| {
      var sent := Numbered(uuid, count, length, 1, pieces);
      forall x | x in received ensures x.Chunk? && (x.sequence == i + 1 ==> x == sent[i]) {
        var j :| 0 <= j < |sent| && sent[j] == x;
      }
      assert sent[i] in sent;
      PieceFound(received, i + 1, sent[i]);
      FromPiece(received, uuid, count, length, pieces, i + 1);
      assert pieces[i..][1..] == pieces[i + 1..];
    }
  }
}
