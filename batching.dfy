/**
 * The batching pattern the three handlers share: a FIFO queue is drained
 * from the front in chunks of at most `maxBatchSize` records, each chunk
 * going out as one HTTP POST. This module gives the value-level meaning of
 * a flush; the handler classes are proved against it.
 */
module Batching {

  /**
   * One POST a handler issues: the URL, and the JSON body
   * `{ token, type: kind, <kind>: batch }` (the body key equals the type).
   */
  datatype Request<E> = Request(url: string, token: string, kind: string, batch: seq<E>)

  function Min(a: nat, b: nat): nat {
    if a <= b then a else b
  }

  /** What `queue.splice(0, size)` removes and returns. */
  function Take<E>(q: seq<E>, size: nat): (c: seq<E>)
    ensures |c| == Min(size, |q|) && c == q[..|c|]
  {
    q[..Min(size, |q|)]
  }

  /** What `queue.splice(0, size)` leaves in the queue. */
  function Drop<E>(q: seq<E>, size: nat): (rest: seq<E>)
    ensures Take(q, size) + rest == q
  {
    q[Min(size, |q|)..]
  }

  /** The successive chunks a forced flush splices off a queue. */
  function Chunks<E>(q: seq<E>, size: nat): seq<seq<E>>
    requires size > 0
    decreases |q|
  {
    if q == [] then [] else [Take(q, size)] + Chunks(Drop(q, size), size)
  }

  function Concat<E>(cs: seq<seq<E>>): seq<E> {
    if cs == [] then [] else cs[0] + Concat(cs[1..])
  }

  /** The chunks `flushBatch(force)` hands to `sendBatch`, in order. */
  function Flushed<E>(q: seq<E>, size: nat, force: bool): seq<seq<E>>
    requires size > 0
  {
    if force then Chunks(q, size) else if q == [] then [] else [Take(q, size)]
  }

  /** The queue `flushBatch(force)` leaves behind. */
  function Left<E>(q: seq<E>, size: nat, force: bool): seq<E> {
    if force then [] else Drop(q, size)
  }

  /** The requests that sending the chunks `cs`, in order, issues: one per chunk. */
  function Posts<E>(url: string, token: string, kind: string, cs: seq<seq<E>>): (rs: seq<Request<E>>) {
    seq(|cs|, i requires 0 <= i < |cs| => Request(url, token, kind, cs[i]))
  }

  /** Every record the requests `rs` carried, in the order they went out. */
  function Sent<E>(rs: seq<Request<E>>): seq<E> {
    if rs == [] then [] else rs[0].batch + Sent(rs[1..])
  }

  /** One request went to `url` with `token` and `kind`, carrying between 1 and `size` records. */
  predicate WellFormedRequest<E>(r: Request<E>, url: string, token: string, kind: string, size: nat) {
    r.url == url && r.token == token && r.kind == kind && 1 <= |r.batch| <= size
  }

  /** Every request in `rs` is well formed. */
  ghost predicate WellFormed<E>(rs: seq<Request<E>>, url: string, token: string, kind: string, size: nat)
    decreases |rs|
  {
    rs == [] || (WellFormedRequest(rs[0], url, token, kind, size) && WellFormed(rs[1..], url, token, kind, size))
  }

  /** `WellFormed` holds exactly when each request is well formed. */
  lemma {:induction false} WellFormedEach<E>(rs: seq<Request<E>>, url: string, token: string, kind: string, size: nat)
    ensures WellFormed(rs, url, token, kind, size) <==>
      forall i :: 0 <= i < |rs| ==> WellFormedRequest(rs[i], url, token, kind, size)
    decreases |rs|
  {
    if rs != [] {
      WellFormedEach(rs[1..], url, token, kind, size);
      assert forall i :: 1 <= i < |rs| ==> rs[i] == rs[1..][i - 1];
    }
  }

  lemma {:induction false} SentAppend<E>(a: seq<Request<E>>, b: seq<Request<E>>)
    ensures Sent(a + b) == Sent(a) + Sent(b)
  {
    if a != [] {
      assert (a + b)[1..] == a[1..] + b;
      SentAppend(a[1..], b);
    } else {
      assert a + b == b;
    }
  }

  /** The records carried by the requests for `cs` are the concatenation of `cs`. */
  lemma {:induction false} SentPosts<E>(url: string, token: string, kind: string, cs: seq<seq<E>>)
    ensures Sent(Posts(url, token, kind, cs)) == Concat(cs)
  {
    if cs != [] {
      SentPosts(url, token, kind, cs[1..]);
      assert Posts(url, token, kind, cs)[1..] == Posts(url, token, kind, cs[1..]);
    }
  }

  /** Forced flushing loses and reorders nothing: the chunks put back together are the queue. */
  lemma {:induction false} ChunksConcat<E>(q: seq<E>, size: nat)
    requires size > 0
    ensures Concat(Chunks(q, size)) == q
    decreases |q|
  {
    if q != [] {
      var cs := Chunks(q, size);
      ChunksConcat(Drop(q, size), size);
      assert cs[0] == Take(q, size) && cs[1..] == Chunks(Drop(q, size), size);
    }
  }

  /** Every chunk holds between 1 and `size` records, and every chunk but the last holds exactly `size`. */
  lemma {:induction false} ChunksShape<E>(q: seq<E>, size: nat)
    requires size > 0
    ensures var cs := Chunks(q, size);
      && (forall i :: 0 <= i < |cs| ==> 1 <= |cs[i]| <= size)
      && (forall i :: 0 <= i < |cs| - 1 ==> |cs[i]| == size)
    decreases |q|
  {
    if q != [] {
      var cs := Chunks(q, size);
      ChunksShape(Drop(q, size), size);
      assert cs[1..] == Chunks(Drop(q, size), size);
      if |q| < size {
        assert Drop(q, size) == [];
      }
      forall i | 0 <= i < |cs|
        ensures 1 <= |cs[i]| <= size && (i < |cs| - 1 ==> |cs[i]| == size)
      {
        if i > 0 {
          assert cs[i] == cs[1..][i - 1];
        }
      }
    }
  }

  /** The number of chunks: one per started `size` records. */
  lemma {:induction false} ChunksCount<E>(q: seq<E>, size: nat)
    requires size > 0
    ensures (|Chunks(q, size)| - 1) * size < |q| <= |Chunks(q, size)| * size
    decreases |q|
  {
    if q != [] {
      ChunksCount(Drop(q, size), size);
      var n := |Chunks(Drop(q, size), size)|;
      assert |Chunks(q, size)| == n + 1;
      if |q| <= size {
        assert Drop(q, size) == [] && n == 0;
      } else {
        assert |Drop(q, size)| == |q| - size;
        assert (n + 1) * size == n * size + size;
      }
    }
  }

  /** A queue of 250 records is forced out as three chunks of 100, 100 and 50, in order. */
  lemma Chunks250<E>(q: seq<E>)
    requires |q| == 250
    ensures Chunks(q, 100) == [q[..100], q[100..200], q[200..]]
  {
    var d1 := Drop(q, 100);
    var d2 := Drop(d1, 100);
    assert |d1| == 150 && |d2| == 50;
    assert Take(d2, 100) == d2 && Drop(d2, 100) == [];
    assert Chunks(d2, 100) == [d2] + Chunks([], 100);
    assert d2 == q[200..];
    assert Take(d1, 100) == q[100..200];
  }

  /** A flush sends a prefix of the queue in order and keeps the rest, so nothing is lost or reordered. */
  lemma FlushPartition<E>(q: seq<E>, size: nat, force: bool)
    requires size > 0
    ensures Concat(Flushed(q, size, force)) + Left(q, size, force) == q
  {
    if force {
      ChunksConcat(q, size);
    } else if q != [] {
      assert Concat([Take(q, size)]) == Take(q, size) + Concat([]);
    }
  }

  /** A flush that is not forced sends at most one chunk, the first `min(n, size)` records. */
  lemma UnforcedFlushSendsOneChunk<E>(q: seq<E>, size: nat)
    requires size > 0
    ensures |Flushed(q, size, false)| == if q == [] then 0 else 1
    ensures q != [] ==> Flushed(q, size, false)[0] == q[..Min(size, |q|)]
    ensures Left(q, size, false) == q[Min(size, |q|)..]
  {
  }

  /** A forced flush empties the queue, and sends nothing for an empty queue. */
  lemma ForcedFlushDrains<E>(q: seq<E>, size: nat)
    requires size > 0
    ensures Left(q, size, true) == []
    ensures q == [] <==> Flushed(q, size, true) == []
  {
  }

  /** The requests for well-shaped chunks are well formed. */
  lemma PostsWellFormed<E>(url: string, token: string, kind: string, cs: seq<seq<E>>, size: nat)
    requires forall i :: 0 <= i < |cs| ==> 1 <= |cs[i]| <= size
    ensures WellFormed(Posts(url, token, kind, cs), url, token, kind, size)
  {
    WellFormedEach(Posts(url, token, kind, cs), url, token, kind, size);
  }

  /** Every chunk a flush sends holds between 1 and `size` records. */
  lemma FlushedShape<E>(q: seq<E>, size: nat, force: bool)
    requires size > 0
    ensures var cs := Flushed(q, size, force); forall i :: 0 <= i < |cs| ==> 1 <= |cs[i]| <= size
  {
    if force {
      ChunksShape(q, size);
      assert Flushed(q, size, force) == Chunks(q, size);
    }
  }

  lemma WellFormedAppend<E>(a: seq<Request<E>>, b: seq<Request<E>>, url: string, token: string, kind: string, size: nat)
    requires WellFormed(a, url, token, kind, size) && WellFormed(b, url, token, kind, size)
    ensures WellFormed(a + b, url, token, kind, size)
  {
    WellFormedEach(a, url, token, kind, size);
    WellFormedEach(b, url, token, kind, size);
    WellFormedEach(a + b, url, token, kind, size);
    assert forall i :: |a| <= i < |a + b| ==> (a + b)[i] == b[i - |a|];
  }

  /**
   * What a handler's invariant needs from a flush: the records already sent
   * followed by the queue are the same before and after, and every request
   * issued is well formed.
   */
  lemma FlushKeepsRecords<E>(sent: seq<Request<E>>, q: seq<E>, url: string, token: string, kind: string, size: nat, force: bool)
    requires size > 0 && WellFormed(sent, url, token, kind, size)
    ensures var sent' := sent + Posts(url, token, kind, Flushed(q, size, force));
      && Sent(sent') + Left(q, size, force) == Sent(sent) + q
      && WellFormed(sent', url, token, kind, size)
  {
    var cs := Flushed(q, size, force);
    SentAppend(sent, Posts(url, token, kind, cs));
    SentPosts(url, token, kind, cs);
    FlushPartition(q, size, force);
    FlushedShape(q, size, force);
    PostsWellFormed(url, token, kind, cs, size);
    WellFormedAppend(sent, Posts(url, token, kind, cs), url, token, kind, size);
  }

  /** One more chunk spliced off the queue during a forced flush. */
  lemma ChunksStep<E>(q0: seq<E>, done: seq<seq<E>>, q: seq<E>, size: nat)
    requires size > 0 && q != [] && Chunks(q0, size) == done + Chunks(q, size)
    ensures Chunks(q0, size) == (done + [Take(q, size)]) + Chunks(Drop(q, size), size)
  {
  }

  /** One more request issued: the log grows by it. */
  lemma PostsStep<E>(log: seq<Request<E>>, url: string, token: string, kind: string, done: seq<seq<E>>, batch: seq<E>)
    ensures log + Posts(url, token, kind, done + [batch])
         == (log + Posts(url, token, kind, done)) + [Request(url, token, kind, batch)]
  {
  }

  /**
   * An unforced flush sends the first chunk a forced flush would send and
   * leaves a queue whose chunks are the rest: successive batcher turns send
   * the same requests as one forced flush.
   */
  lemma UnforcedFlushIsFirstChunk<E>(q: seq<E>, size: nat)
    requires size > 0
    ensures Chunks(q, size) == Flushed(q, size, false) + Chunks(Left(q, size, false), size)
  {
    if q == [] {
      assert Left(q, size, false) == [];
    }
  }
}
