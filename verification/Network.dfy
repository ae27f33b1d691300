/**
 From the matching loop to the wire: the outbox of a request is handed to the queues of the
 connections it is meant for, and their writes deliver it.
 */
module Network {
  import opened WritePump
  import opened SessionPump
  import opened Matching
  import opened Protocol

  type Conns = map<nat, Conn<Response>>

  ghost predicate AllSound(cs: Conns) {
    forall i :: i in cs ==> ConnSound(cs[i])
  }

  // One `addResponsesQueue` call.
  function Deliver(cs: Conns, d: Delivery): Conns {
    if d.session in cs
    then cs[d.session := cs[d.session].(pump := Push(cs[d.session].pump, [d.response]))]
    else cs
  }

  function Dispatch(cs: Conns, ds: seq<Delivery>): Conns {
    if ds == [] then cs else Deliver(Dispatch(cs, ds[..|ds| - 1]), ds[|ds| - 1])
  }

  // From a to b these responses were queued, and nothing else happened.
  ghost predicate Queued(a: Conn<Response>, b: Conn<Response>, xs: seq<Response>) {
    && b.pump.enqueued == a.pump.enqueued + xs
    && b.pump.delivered == a.pump.delivered
    && b.reading == a.reading && b.open == a.open
  }

  lemma DeliverExact(cs: Conns, d: Delivery, i: nat)
    requires AllSound(cs) && i in cs
    ensures i in Deliver(cs, d) && ConnSound(Deliver(cs, d)[i])
    ensures Queued(cs[i], Deliver(cs, d)[i], if d.session == i then [d.response] else [])
  {
    if d.session == i {
      HandleKeeps(cs[i], Reported(d.response));
    } else {
      assert cs[i].pump.enqueued + [] == cs[i].pump.enqueued;
    }
  }

  lemma QueuedTwice(a: Conn<Response>, b: Conn<Response>, c: Conn<Response>, xs: seq<Response>, ys: seq<Response>)
    requires Queued(a, b, xs) && Queued(b, c, ys)
    ensures Queued(a, c, xs + ys)
  {
  }

  // Every connection is queued exactly its own part of the outbox, in order, and stays sound.
  lemma {:induction false} DispatchExact(cs: Conns, ds: seq<Delivery>)
    requires AllSound(cs)
    ensures AllSound(Dispatch(cs, ds)) && Dispatch(cs, ds).Keys == cs.Keys
    ensures forall i :: i in cs ==> Queued(cs[i], Dispatch(cs, ds)[i], Inbox(ds, i))
  {
    if ds == [] {
      forall i | i in cs ensures Queued(cs[i], cs[i], []) {
        assert cs[i].pump.enqueued + [] == cs[i].pump.enqueued;
      }
    } else {
      var n := |ds| - 1;
      var before, d := Dispatch(cs, ds[..n]), ds[n];
      DispatchExact(cs, ds[..n]);
      forall i | i in cs
        ensures i in Deliver(before, d) && ConnSound(Deliver(before, d)[i])
        ensures Queued(cs[i], Deliver(before, d)[i], Inbox(ds, i))
      {
        DeliverExact(before, d, i);
        QueuedTwice(cs[i], before[i], Deliver(before, d)[i], Inbox(ds[..n], i),
                    if d.session == i then [d.response] else []);
      }
    }
  }

  // A whole request of connection `sid`: its read completes, and what it sent to others is dispatched.
  ghost function Handled(cs: Conns, sid: nat, all: seq<Delivery>, responses: seq<Response>): Conns
    requires sid in cs && cs[sid].reading > 0 && responses != []
  {
    Dispatch(cs[sid := Handle(cs[sid], ReadDone(Inbox(all, sid) + responses))], Without(all, sid))
  }

  // The requester is queued its own part of the outbox and then its answers, every other connection
  // its part, all exactly once.
  lemma HandledExact(cs: Conns, sid: nat, all: seq<Delivery>, responses: seq<Response>, i: nat)
    requires AllSound(cs) && sid in cs && cs[sid].reading > 0 && responses != [] && i in cs
    ensures var after := Handled(cs, sid, all, responses);
      && AllSound(after) && after.Keys == cs.Keys
      && after[i].pump.enqueued == cs[i].pump.enqueued + (Inbox(all, i) + (if i == sid then responses else []))
      && after[i].pump.delivered == cs[i].pump.delivered && after[i].open == cs[i].open
  {
    var own := Handle(cs[sid], ReadDone(Inbox(all, sid) + responses));
    HandleKeeps(cs[sid], ReadDone(Inbox(all, sid) + responses));
    DispatchExact(cs[sid := own], Without(all, sid));
    InboxWithout(all, sid, i);
    assert Inbox(all, i) + [] == Inbox(all, i);
    assert own.pump.enqueued + [] == own.pump.enqueued;
  }

  // After a placement, a live connection that keeps writing delivers, behind what was already queued,
  // the reports of exactly the trades with the users registered for it, once each and in order; the
  // requester delivers its answers behind them.
  lemma ReportsArrive(cs: Conns, sid: nat, ts: seq<Trade>, sessions: map<nat, nat>, live: set<nat>,
                      responses: seq<Response>, i: nat)
    requires AllSound(cs) && sid in cs && cs[sid].reading > 0 && responses != []
    requires i in cs && i in live && cs[i].open
    ensures var after := Handled(cs, sid, FanOut(ts, sessions, live), responses);
      && i in after && !after[i].pump.broken
      && WrittenTimes(after[i].pump, |after[i].pump.pending|).delivered
         == cs[i].pump.enqueued + (Reports(TradesOf(ts, sessions, i)) + (if i == sid then responses else []))
  {
    var all := FanOut(ts, sessions, live);
    HandledExact(cs, sid, all, responses, i);
    FanOutExact(ts, sessions, live, i);
    var pump := Handled(cs, sid, all, responses)[i].pump;
    Drains(pump, |pump.pending|);
  }
}
