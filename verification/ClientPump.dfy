/**
 The client: requests are posted to the executor and written one at a time, beside a read loop that
 re-arms itself after every message.
 */
module ClientPump {
  import opened Wrappers
  import opened WritePump

  datatype Peer<T, R> = Peer(pump: Pump<T>, reading: nat, readFailed: bool, received: seq<R>, emitted: seq<R>)

  datatype PeerEvent<T, R> =
    | Posted(request: T)
    | WriteDone
    | WriteFailed
    | ReadDone(message: R)
    | ReadFailed

  // Exactly one read is armed until a read fails, whatever the writes do, and every message that
  // arrived was emitted, in order.
  ghost predicate PeerSound<T(!new), R(!new)>(c: Peer<T, R>) {
    && Sound(c.pump)
    && c.reading == (if c.readFailed then 0 else 1)
    && c.emitted == c.received
  }

  ghost predicate CanHappen<T(!new), R(!new)>(c: Peer<T, R>, e: PeerEvent<T, R>) {
    match e
    case Posted(_) => true
    case WriteDone => c.pump.writing > 0 && c.pump.pending != [] && c.pump.buffer.Some?
    case WriteFailed => c.pump.writing > 0
    case ReadDone(_) => c.reading > 0
    case ReadFailed => c.reading > 0
  }

  ghost function Handle<T(!new), R(!new)>(c: Peer<T, R>, e: PeerEvent<T, R>): Peer<T, R>
    requires CanHappen(c, e)
  {
    match e
    case Posted(request) => c.(pump := Push(c.pump, [request]))
    case WriteDone => c.(pump := Written(c.pump))
    case WriteFailed => c.(pump := Failed(c.pump))
    case ReadDone(message) => c.(received := c.received + [message], emitted := c.emitted + [message])
    case ReadFailed => c.(reading := c.reading - 1, readFailed := true)
  }

  function PostedBy<T, R>(e: PeerEvent<T, R>): seq<T> {
    if e.Posted? then [e.request] else []
  }

  function ArrivedBy<T, R>(e: PeerEvent<T, R>): seq<R> {
    if e.ReadDone? then [e.message] else []
  }

  lemma HandleKeeps<T(!new), R(!new)>(c: Peer<T, R>, e: PeerEvent<T, R>)
    requires PeerSound(c) && CanHappen(c, e)
    ensures PeerSound(Handle(c, e))
    ensures Handle(c, e).pump.enqueued == c.pump.enqueued + PostedBy(e)
    ensures Handle(c, e).emitted == c.emitted + ArrivedBy(e)
    ensures c.pump.writing == 1 && !e.WriteDone? ==> Handle(c, e).pump.buffer == c.pump.buffer
  {
    match e
    case Posted(request) => PushKeeps(c.pump, [request]);
    case WriteDone => WrittenKeeps(c.pump);
    case _ =>
  }

  // The requests and the messages among some events.
  function PostedIn<T, R>(es: seq<PeerEvent<T, R>>): seq<T> {
    if es == [] then [] else PostedBy(es[0]) + PostedIn(es[1..])
  }

  function ArrivedIn<T, R>(es: seq<PeerEvent<T, R>>): seq<R> {
    if es == [] then [] else ArrivedBy(es[0]) + ArrivedIn(es[1..])
  }

  // A run of events, each possible when it happens.
  ghost predicate Reaches<T(!new), R(!new)>(c: Peer<T, R>, es: seq<PeerEvent<T, R>>, d: Peer<T, R>)
    decreases |es|
  {
    if es == [] then c == d
    else CanHappen(c, es[0]) && Reaches(Handle(c, es[0]), es[1..], d)
  }

  lemma {:induction false} RunKeeps<T(!new), R(!new)>(c: Peer<T, R>, es: seq<PeerEvent<T, R>>, d: Peer<T, R>)
    requires PeerSound(c) && Reaches(c, es, d)
    ensures PeerSound(d)
    ensures d.pump.enqueued == c.pump.enqueued + PostedIn(es)
    ensures d.emitted == c.emitted + ArrivedIn(es)
    decreases |es|
  {
    if es == [] {
      assert c.pump.enqueued + [] == c.pump.enqueued && c.emitted + [] == c.emitted;
    } else {
      HandleKeeps(c, es[0]);
      RunKeeps(Handle(c, es[0]), es[1..], d);
      Reassociate(c.pump.enqueued, PostedBy(es[0]), PostedIn(es[1..]));
      Reassociate(c.emitted, ArrivedBy(es[0]), ArrivedIn(es[1..]));
    }
  }

  ghost predicate ReadFails<T(!new), R(!new)>(es: seq<PeerEvent<T, R>>) {
    exists i :: 0 <= i < |es| && es[i].ReadFailed?
  }

  ghost predicate WriteFails<T(!new), R(!new)>(es: seq<PeerEvent<T, R>>) {
    exists i :: 0 <= i < |es| && es[i].WriteFailed?
  }

  lemma FailsHead<T(!new), R(!new)>(es: seq<PeerEvent<T, R>>)
    requires es != []
    ensures ReadFails(es) <==> es[0].ReadFailed? || ReadFails(es[1..])
    ensures WriteFails(es) <==> es[0].WriteFailed? || WriteFails(es[1..])
  {
    assert forall i :: 1 <= i < |es| ==> es[i] == es[1..][i - 1];
    assert forall i :: 0 <= i < |es| - 1 ==> es[1..][i] == es[i + 1];
  }

  // The client stops reading exactly when a read fails, and writing exactly when a write fails.
  lemma {:induction false} StopsAtFailure<T(!new), R(!new)>(c: Peer<T, R>, es: seq<PeerEvent<T, R>>, d: Peer<T, R>)
    requires Reaches(c, es, d)
    ensures d.readFailed <==> c.readFailed || ReadFails(es)
    ensures d.pump.broken <==> c.pump.broken || WriteFails(es)
    decreases |es|
  {
    if es != [] {
      FailsHead(es);
      StopsAtFailure(Handle(c, es[0]), es[1..], d);
    }
  }

  // After the handshake nothing is pending and one read is armed.
  function Connected<T, R>(): Peer<T, R> {
    Peer(Idle(), 1, false, [], [])
  }

  // A client that starts listens, and a message can arrive until a read fails; its requests are sent in
  // order, and one is being sent while any is pending, until a write fails.
  lemma FromTheStart<T(!new), R(!new)>(es: seq<PeerEvent<T, R>>, d: Peer<T, R>, message: R)
    requires Reaches(Connected(), es, d)
    ensures var c := Connected<T, R>(); CanHappen(c, ReadDone(message)) && c.pump.writing == 0 && c.pump.enqueued == []
    ensures d.pump.delivered + d.pump.pending == PostedIn(es) && d.emitted == ArrivedIn(es)
    ensures CanHappen(d, ReadDone(message)) <==> !ReadFails(es)
    ensures CanHappen(d, WriteDone) <==> d.pump.pending != [] && !WriteFails(es)
  {
    RequestsInOrder(Connected(), es, d);
    RunKeeps(Connected(), es, d);
    StopsAtFailure(Connected(), es, d);
  }

  // For every interleaving: what the server has received followed by what is pending is what was
  // posted, in order; what arrived was emitted, in order; at most one write is in flight and it can
  // complete, and there is one while something is pending, until a write fails; one read is armed until
  // one fails.
  lemma RequestsInOrder<T(!new), R(!new)>(c: Peer<T, R>, es: seq<PeerEvent<T, R>>, d: Peer<T, R>)
    requires PeerSound(c) && Reaches(c, es, d)
    ensures d.pump.delivered + d.pump.pending == c.pump.enqueued + PostedIn(es)
    ensures d.emitted == c.emitted + ArrivedIn(es)
    ensures d.pump.writing <= 1
    ensures d.pump.writing > 0 ==> CanHappen(d, WriteDone) && d.pump.buffer == Some(d.pump.pending[0])
    ensures !d.pump.broken && d.pump.pending != [] ==> d.pump.writing > 0
    ensures d.reading == (if d.readFailed then 0 else 1)
  {
    RunKeeps(c, es, d);
  }

  class Client<T(!new), R(!new)> {
    var pending: seq<T>
    var msg: Option<T>
    var writing: nat
    var reading: nat
    ghost var broken: bool
    ghost var enqueued: seq<T>
    ghost var delivered: seq<T>
    ghost var readFailed: bool
    ghost var received: seq<R>
    var emitted: seq<R>

    ghost function View(): Peer<T, R>
      reads this
    {
      Peer(Pump(pending, msg, writing, broken, enqueued, delivered), reading, readFailed, received, emitted)
    }

    // The handshake has succeeded and the first read is armed.
    constructor ()
      ensures View() == Connected() && PeerSound(View())
      ensures reading == 1 && !readFailed && writing == 0 && pending == [] && emitted == []
    {
      pending, msg, writing, reading, emitted := [], None, 0, 1, [];
      broken, enqueued, delivered, readFailed, received := false, [], [], false, [];
    }

    // The posted part of `write`.
    method Write(request: T)
      requires PeerSound(View())
      modifies this
      ensures View() == Handle(old(View()), Posted(request)) && PeerSound(View())
    {
      HandleKeeps(View(), Posted(request));
      var writeInProgress := pending != [];
      pending, enqueued := pending + [request], enqueued + [request];
      if !writeInProgress {
        DoWrite();
      }
    }

    method DoWrite()
      requires pending != []
      modifies this`msg, this`writing
      ensures View().pump == WritePump.DoWrite(old(View()).pump)
    {
      msg := Some(pending[0]);
      writing := writing + 1;
    }

    method OnWrite(ok: bool)
      requires PeerSound(View()) && writing > 0
      modifies this
      ensures View() == Handle(old(View()), if ok then WriteDone else WriteFailed) && PeerSound(View())
    {
      HandleKeeps(View(), if ok then WriteDone else WriteFailed);
      writing := writing - 1;
      if ok {
        delivered := delivered + [msg.value];
        pending := pending[1..];
        if pending != [] {
          DoWrite();
        }
      } else {
        broken := true;
      }
    }

    method OnRead(message: Option<R>)
      requires PeerSound(View()) && reading > 0
      modifies this
      ensures View() == Handle(old(View()), if message.Some? then ReadDone(message.value) else ReadFailed)
      ensures PeerSound(View())
    {
      reading := reading - 1;
      if message.Some? {
        received := received + [message.value];
        emitted := emitted + [message.value];
        reading := reading + 1;
      } else {
        readFailed := true;
      }
    }
  }
}
