/**
 The queue of outgoing messages of a connection: a deque, one buffer, and at most one asynchronous
 write reading from that buffer.  Server sessions and clients share its shape.
 */
module WritePump {
  import opened Wrappers

  // `enqueued` and `delivered` are histories: what was ever pushed, and what the peer has received.
  // The peer receives what is in the buffer when the write completes.
  datatype Pump<T> = Pump(pending: seq<T>, buffer: Option<T>, writing: nat, broken: bool,
                          enqueued: seq<T>, delivered: seq<T>)

  function Idle<T>(): Pump<T> {
    Pump([], None, 0, false, [], [])
  }

  // Copies the front message into the buffer and starts a write.
  function DoWrite<T>(p: Pump<T>): Pump<T>
    requires p.pending != []
  {
    p.(buffer := Some(p.pending[0]), writing := p.writing + 1)
  }

  // Pushes messages; a write is started if none was pending before.
  function Push<T>(p: Pump<T>, xs: seq<T>): Pump<T>
    requires xs != []
  {
    var q := p.(pending := p.pending + xs, enqueued := p.enqueued + xs);
    if p.pending == [] then DoWrite(q) else q
  }

  // A write completes without error: the front message is done, and the next one follows.
  function Written<T>(p: Pump<T>): Pump<T>
    requires p.writing > 0 && p.pending != [] && p.buffer.Some?
  {
    var q := p.(pending := p.pending[1..], writing := p.writing - 1, delivered := p.delivered + [p.buffer.value]);
    if q.pending != [] then DoWrite(q) else q
  }

  // A write fails: nothing is taken from the queue.
  function Failed<T>(p: Pump<T>): Pump<T>
    requires p.writing > 0
  {
    p.(writing := p.writing - 1, broken := true)
  }

  // Delivered followed by pending is what was enqueued; at most one write is in flight, it sends the
  // front message; and unless a write has failed one is in flight exactly when something is pending.
  ghost predicate Sound<T(!new)>(p: Pump<T>) {
    && p.enqueued == p.delivered + p.pending
    && p.writing <= 1
    && (p.writing == 1 ==> p.pending != [] && p.buffer == Some(p.pending[0]))
    && (!p.broken ==> (p.writing == 1 <==> p.pending != []))
    && (p.broken ==> p.writing == 0 && p.pending != [])
  }

  lemma PushKeeps<T(!new)>(p: Pump<T>, xs: seq<T>)
    requires Sound(p) && xs != []
    ensures Sound(Push(p, xs))
    ensures p.writing == 1 ==> Push(p, xs).buffer == p.buffer && Push(p, xs).writing == 1
  {
    var q := Push(p, xs);
    assert q.enqueued == q.delivered + q.pending;
  }

  lemma WrittenKeeps<T(!new)>(p: Pump<T>)
    requires Sound(p) && p.writing == 1
    ensures Sound(Written(p))
    ensures Written(p).delivered == p.delivered + [p.pending[0]]
  {
    var q := Written(p);
    assert q.delivered + q.pending == p.delivered + ([p.pending[0]] + p.pending[1..]);
  }

  // Pushing twice is pushing the joined messages.
  lemma PushTwice<T(!new)>(p: Pump<T>, xs: seq<T>, ys: seq<T>)
    requires xs != [] && ys != []
    ensures Push(Push(p, xs), ys) == Push(p, xs + ys)
  {
    assert p.pending + xs + ys == p.pending + (xs + ys);
    assert p.enqueued + xs + ys == p.enqueued + (xs + ys);
  }

  function WrittenTimes<T(!new)>(p: Pump<T>, n: nat): Pump<T> {
    if n == 0 then p
    else
      var q := WrittenTimes(p, n - 1);
      if q.writing > 0 && q.pending != [] && q.buffer.Some? then Written(q) else q
  }

  // As many completed writes as there are pending messages deliver everything that was enqueued.
  lemma {:induction false} Drains<T(!new)>(p: Pump<T>, n: nat)
    requires Sound(p) && !p.broken && n <= |p.pending|
    ensures var q := WrittenTimes(p, n);
      && Sound(q) && !q.broken && q.enqueued == p.enqueued
      && q.pending == p.pending[n..]
      && (n == |p.pending| ==> q.delivered == p.enqueued && q.writing == 0)
  {
    if n > 0 {
      Drains(p, n - 1);
      WrittenKeeps(WrittenTimes(p, n - 1));
    }
  }
}
