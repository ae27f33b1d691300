/**
 A server session: reads are armed when the queue of responses runs empty, and reports from the
 handlers of other connections may be queued at any time.
 */
module SessionPump {
  import opened Wrappers
  import opened WritePump
  import opened Exchange
  import opened Quotation
  import opened Protocol
  import opened Server

  datatype Conn<T> = Conn(pump: Pump<T>, reading: nat, open: bool)

  datatype ConnEvent<T> =
    | ReadDone(responses: seq<T>)
    | ReadFailed
    | WriteDone
    | WriteFailed
    | Reported(report: T)    // from the handler of another connection

  // After the handshake one read is armed.
  function Started<T>(): Conn<T> {
    Conn(Idle(), 1, true)
  }

  ghost predicate CanHappen<T(!new)>(c: Conn<T>, e: ConnEvent<T>) {
    match e
    case ReadDone(responses) => c.reading > 0 && responses != []
    case ReadFailed => c.reading > 0
    case WriteDone => c.pump.writing > 0 && c.pump.pending != [] && c.pump.buffer.Some?
    case WriteFailed => c.pump.writing > 0
    case Reported(_) => true
  }

  function AfterWrite<T>(c: Conn<T>): Conn<T>
    requires c.pump.writing > 0 && c.pump.pending != [] && c.pump.buffer.Some?
  {
    var q := Written(c.pump);
    c.(pump := q, reading := if q.pending == [] then c.reading + 1 else c.reading)
  }

  ghost function Handle<T(!new)>(c: Conn<T>, e: ConnEvent<T>): Conn<T>
    requires CanHappen(c, e)
  {
    match e
    case ReadDone(responses) => c.(pump := Push(c.pump, responses), reading := c.reading - 1)
    case ReadFailed => c.(reading := c.reading - 1, open := false)
    case WriteDone => AfterWrite(c)
    case WriteFailed => c.(pump := Failed(c.pump), open := false)
    case Reported(report) => c.(pump := Push(c.pump, [report]))
  }

  // The queue is sound, and an open connection always waits for something.
  ghost predicate ConnSound<T(!new)>(c: Conn<T>) {
    && Sound(c.pump)
    && (c.open ==> !c.pump.broken && (c.pump.writing == 1 || c.reading > 0))
  }

  // What an event puts into the queue.
  function QueuedBy<T>(e: ConnEvent<T>): seq<T> {
    match e
    case ReadDone(responses) => responses
    case Reported(report) => [report]
    case _ => []
  }

  lemma HandleKeeps<T(!new)>(c: Conn<T>, e: ConnEvent<T>)
    requires ConnSound(c) && CanHappen(c, e)
    ensures ConnSound(Handle(c, e)) && Handle(c, e).pump.enqueued == c.pump.enqueued + QueuedBy(e)
    ensures c.pump.writing == 1 && !e.WriteDone? ==> Handle(c, e).pump.buffer == c.pump.buffer
  {
    match e
    case ReadDone(responses) => PushKeeps(c.pump, responses);
    case Reported(report) => PushKeeps(c.pump, [report]);
    case WriteDone => WrittenKeeps(c.pump);
    case _ =>
  }

  // ---------------------------------------------------------------- all interleavings

  function QueuedIn<T>(es: seq<ConnEvent<T>>): seq<T> {
    if es == [] then [] else QueuedBy(es[0]) + QueuedIn(es[1..])
  }

  // A run of events, each possible when it happens.
  ghost predicate Reaches<T(!new)>(c: Conn<T>, es: seq<ConnEvent<T>>, d: Conn<T>)
    decreases |es|
  {
    if es == [] then c == d
    else CanHappen(c, es[0]) && Reaches(Handle(c, es[0]), es[1..], d)
  }

  // Whatever the interleaving of reads, writes, failures and foreign reports: what was delivered followed
  // by what is pending is what the events queued, in order; at most one write is in flight and it can
  // complete; and an open connection waits for a read or a write.
  lemma {:induction false} AlwaysSound<T(!new)>(c: Conn<T>, es: seq<ConnEvent<T>>, d: Conn<T>)
    requires ConnSound(c) && Reaches(c, es, d)
    ensures ConnSound(d) && d.pump.writing <= 1
    ensures d.pump.delivered + d.pump.pending == c.pump.enqueued + QueuedIn(es)
    ensures d.pump.writing > 0 ==> CanHappen(d, WriteDone) && d.pump.buffer == Some(d.pump.pending[0])
    ensures d.open ==> CanHappen(d, WriteDone) || CanHappen(d, ReadFailed)
    decreases |es|
  {
    if es == [] {
      assert c.pump.enqueued + [] == c.pump.enqueued;
    } else {
      HandleKeeps(c, es[0]);
      AlwaysSound(Handle(c, es[0]), es[1..], d);
      Reassociate(c.pump.enqueued, QueuedBy(es[0]), QueuedIn(es[1..]));
    }
  }

  // Without reports from others the connection alternates strictly: while it is open exactly one
  // operation, a read or a write, is outstanding.
  lemma {:induction false} HalfDuplex<T(!new)>(c: Conn<T>, es: seq<ConnEvent<T>>, d: Conn<T>)
    requires ConnSound(c) && Reaches(c, es, d) && (c.open ==> c.reading + c.pump.writing == 1)
    requires forall i :: 0 <= i < |es| ==> !es[i].Reported?
    ensures d.open ==> d.reading + d.pump.writing == 1
    decreases |es|
  {
    if es != [] {
      HandleKeeps(c, es[0]);
      HalfDuplex(Handle(c, es[0]), es[1..], d);
    }
  }

  predicate Fails<T(!new)>(e: ConnEvent<T>) {
    e.ReadFailed? || e.WriteFailed?
  }

  ghost predicate NoFailure<T(!new)>(es: seq<ConnEvent<T>>) {
    forall i :: 0 <= i < |es| ==> !Fails(es[i])
  }

  // A connection is open until a read or a write fails, and then never again.
  lemma {:induction false} OpenUntilFailure<T(!new)>(c: Conn<T>, es: seq<ConnEvent<T>>, d: Conn<T>)
    requires Reaches(c, es, d)
    ensures d.open <==> c.open && NoFailure(es)
    decreases |es|
  {
    if es != [] {
      OpenUntilFailure(Handle(c, es[0]), es[1..], d);
      assert NoFailure(es) <==> !Fails(es[0]) && NoFailure(es[1..]) by {
        assert forall i :: 1 <= i < |es| ==> es[i] == es[1..][i - 1];
        assert forall i :: 0 <= i < |es| - 1 ==> es[1..][i] == es[i + 1];
      }
    }
  }

  // A connection that starts listens: its queue is empty and one read is armed.  Whatever happens, it has
  // delivered or holds what was queued, it is open exactly until a failure, and while it is open it waits
  // for a read or a write, for exactly one of them as long as nobody else reports to it.
  lemma FromTheStart<T(!new)>(es: seq<ConnEvent<T>>, d: Conn<T>)
    requires Reaches(Started(), es, d)
    ensures var c := Started<T>(); c.open && c.reading == 1 && c.pump.writing == 0 && c.pump.enqueued == []
    ensures d.pump.delivered + d.pump.pending == QueuedIn(es)
    ensures d.open <==> NoFailure(es)
    ensures NoFailure(es) ==> CanHappen(d, WriteDone) || CanHappen(d, ReadFailed)
    ensures NoFailure(es) && (forall i :: 0 <= i < |es| ==> !es[i].Reported?) ==> d.reading + d.pump.writing == 1
  {
    var c := Started<T>();
    AlwaysSound(c, es, d);
    OpenUntilFailure(c, es, d);
    if forall i :: 0 <= i < |es| ==> !es[i].Reported? {
      HalfDuplex(c, es, d);
    }
  }

  // A report that finds an idle connection breaks the alternation: once it is written, two reads are armed.
  lemma ReportArmsSecondRead<T(!new)>(c: Conn<T>, report: T)
    requires ConnSound(c) && c.open && c.pump.pending == []
    ensures exists d ::
      && Reaches(c, [Reported(report), WriteDone], d)
      && d.reading == c.reading + 1 && d.pump.pending == [] && d.open
  {
    var a := Handle(c, Reported(report));
    HandleKeeps(c, Reported(report));
    var b := Handle(a, WriteDone);
    HandleKeeps(a, WriteDone);
    var es := [Reported(report), WriteDone];
    assert es[1..] == [WriteDone] && es[1..][1..] == [];
    assert Reaches(b, [], b);
    assert Reaches(a, [WriteDone], b);
    assert Reaches(c, es, b);
  }

  // ---------------------------------------------------------------- the session object

  class Session {
    const server: Server
    const sid: nat
    var pending: seq<Response>
    var buffer: Option<Response>
    var writing: nat
    var reading: nat
    var open: bool
    ghost var broken: bool
    ghost var enqueued: seq<Response>
    ghost var delivered: seq<Response>

    ghost function View(): Conn<Response>
      reads this
    {
      Conn(Pump(pending, buffer, writing, broken, enqueued, delivered), reading, open)
    }

    // The handshake has succeeded.
    constructor (server: Server, sid: nat)
      ensures this.server == server && this.sid == sid && View() == Started() && ConnSound(View())
      ensures open && reading == 1 && writing == 0 && pending == [] && delivered == []
    {
      this.server, this.sid := server, sid;
      pending, buffer, writing, reading, open := [], None, 0, 1, true;
      broken, enqueued, delivered := false, [], [];
    }

    method DoWrite()
      requires pending != []
      modifies this`buffer, this`writing
      ensures View().pump == WritePump.DoWrite(old(View()).pump)
    {
      buffer := Some(pending[0]);
      writing := writing + 1;
    }

    // Appends to the queue, and starts a write if nothing was pending.
    method Enqueue(responses: seq<Response>)
      requires responses != []
      modifies this`pending, this`enqueued, this`buffer, this`writing
      ensures View() == old(View()).(pump := Push(old(View()).pump, responses))
    {
      var writeInProgress := pending != [];
      pending, enqueued := pending + responses, enqueued + responses;
      if !writeInProgress {
        DoWrite();
      }
    }

    method AddResponsesQueue(response: Response)
      requires ConnSound(View())
      modifies this
      ensures View() == Handle(old(View()), Reported(response)) && ConnSound(View())
    {
      HandleKeeps(View(), Reported(response));
      Enqueue([response]);
    }

    // A read completes with a request.  Reports the request causes for this very connection are queued
    // while it is handled, before its responses; those for others are returned.
    method OnRead(req: Request, draws: seq<string>, live: set<nat>, limit: nat, forPrices: seq<nat>, forDates: seq<nat>)
      returns (outbox: seq<Delivery>, ghost all: seq<Delivery>, ghost responses: seq<Response>, ghost e: Event)
      requires ConnSound(View()) && reading > 0
      requires server.Valid() && limit > 0 && DrawsOk(server.View(), draws)
      requires Latest(server.db.committed, forPrices, limit) && Latest(server.db.committed, forDates, limit)
      modifies this, server, server.db
      ensures server.Valid() && EventOf(req, sid, draws, e) && server.View() == Next(old(server.View()), e)
      ensures Answered(old(server.View()), e, req, live, limit, forPrices, forDates, responses, all) && responses != []
      ensures Told(old(server.View()), server.View(), req, sid, limit, forPrices, forDates, responses)
      ensures View() == Handle(old(View()), ReadDone(Inbox(all, sid) + responses)) && ConnSound(View())
      ensures outbox == Without(all, sid)
    {
      var answers, sent;
      answers, sent, e := server.ExecRequest(req, sid, draws, live, limit, forPrices, forDates);
      all, responses := sent, answers;
      Respond(Inbox(sent, sid), answers);
      outbox := Without(sent, sid);
    }

    // The end of a read: what was queued while it was handled, and the responses.
    method Respond(mine: seq<Response>, answers: seq<Response>)
      requires ConnSound(View()) && reading > 0 && answers != []
      modifies this
      ensures View() == Handle(old(View()), ReadDone(mine + answers)) && ConnSound(View())
    {
      ghost var c := View();
      HandleKeeps(c, ReadDone(mine + answers));
      reading := reading - 1;
      if mine != [] {
        PushTwice(c.pump, mine, answers);
        Enqueue(mine);
      } else {
        assert mine + answers == answers;
      }
      Enqueue(answers);
    }

    method OnWrite()
      requires ConnSound(View()) && writing > 0
      modifies this
      ensures View() == Handle(old(View()), WriteDone) && ConnSound(View())
    {
      HandleKeeps(View(), WriteDone);
      delivered := delivered + [buffer.value];
      writing := writing - 1;
      pending := pending[1..];
      if pending != [] {
        DoWrite();
      } else {
        reading := reading + 1;
      }
    }

    // A failed read or write closes the session and takes its token out of the registry.
    method OnReadError()
      requires ConnSound(View()) && reading > 0 && server.Valid()
      modifies this, server`activeUsers, server`activeSessions
      ensures View() == Handle(old(View()), ReadFailed) && ConnSound(View()) && !open
      ensures server.Valid() && server.View() == Next(old(server.View()), Close(sid))
    {
      reading := reading - 1;
      server.CloseSession(sid);
      open := false;
    }

    method OnWriteError()
      requires ConnSound(View()) && writing > 0 && server.Valid()
      modifies this, server`activeUsers, server`activeSessions
      ensures View() == Handle(old(View()), WriteFailed) && ConnSound(View()) && !open
      ensures server.Valid() && server.View() == Next(old(server.View()), Close(sid))
    {
      writing := writing - 1;
      broken := true;
      server.CloseSession(sid);
      open := false;
    }
  }
}
