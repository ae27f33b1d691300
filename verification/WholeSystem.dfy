/**
 The server with all its connections: requests, completed writes and failures of any connection, and new
 connections, in any order.  What a connection is owed is said by the events alone, what it gets by the
 queues.
 */
module WholeSystem {
  import opened Tables
  import opened Matching
  import opened Batching
  import opened Planning
  import opened Fill
  import opened Exchange
  import opened Runs
  import opened Registry
  import opened Quotation
  import opened WritePump
  import opened Wrappers
  import opened SessionPump
  import opened Protocol
  import opened Network

  datatype System = System(s: State, cs: Conns)

  datatype Step =
    // a read of connection `sid` completes, and its request is handled while the connections `live` exist
    | Handles(sid: nat, req: Request, draws: seq<string>, live: set<nat>, forPrices: seq<nat>, forDates: seq<nat>,
              e: Event, all: seq<Delivery>, responses: seq<Response>)
    | Connects(sid: nat)
    | Wrote(sid: nat)
    | ReadFails(sid: nat)
    | WriteFails(sid: nat)

  function ConnEventOf(st: Step): ConnEvent<Response>
    requires !st.Handles? && !st.Connects?
  {
    match st
    case Wrote(_) => WriteDone
    case ReadFails(_) => ReadFailed
    case WriteFails(_) => WriteFailed
  }

  // For a request these are the guarantees of the session's read handler.
  ghost predicate CanStep(y: System, st: Step, limit: nat) {
    if st.Connects? then st.sid !in y.cs && st.sid !in y.s.ids
    else
      && st.sid in y.cs
      && (if st.Handles? then
            && y.cs[st.sid].reading > 0 && st.responses != []
            && EventOf(st.req, st.sid, st.draws, st.e) && Enabled(y.s, st.e, limit)
            && Latest(y.s.db, st.forPrices, limit) && Latest(y.s.db, st.forDates, limit)
            && Answered(y.s, st.e, st.req, st.live, limit, st.forPrices, st.forDates, st.responses, st.all)
          else CanHappen(y.cs[st.sid], ConnEventOf(st)))
  }

  ghost function Stepped(y: System, st: Step, limit: nat): System
    requires CanStep(y, st, limit)
  {
    match st
    case Handles(sid, _, _, _, _, _, e, all, responses) => System(Next(y.s, e), Handled(y.cs, sid, all, responses))
    case Connects(sid) => System(y.s, y.cs[sid := Started()])
    case Wrote(sid) => System(y.s, y.cs[sid := Handle(y.cs[sid], WriteDone)])
    case ReadFails(sid) => System(Next(y.s, Close(sid)), y.cs[sid := Handle(y.cs[sid], ReadFailed)])
    case WriteFails(sid) => System(Next(y.s, Close(sid)), y.cs[sid := Handle(y.cs[sid], WriteFailed)])
  }

  // ---------------------------------------------------------------- what a connection is owed

  // The reports of the trades with users registered for it, if it exists, and the answers to its requests.
  ghost function Owed(s: State, st: Step, i: nat): seq<Response> {
    if !st.Handles? then []
    else ReportsFor(s, st.e, st.live, i) + (if i == st.sid then st.responses else [])
  }

  function ReportsFor(s: State, e: Event, live: set<nat>, i: nat): seq<Response> {
    if !e.Place? || e.token !in s.users || i !in live then []
    else
      var u := s.users[e.token];
      var p, o := Start(s.db, u, e.side, e.usd, e.price), OrderPlaced(s.db, u, e.side, e.usd, e.price);
      Reports(TradesOf(NewTrades(p, o, Flatten(e.batches)), s.sessions, i))
  }

  ghost predicate Leads(y: System, sts: seq<Step>, z: System, limit: nat)
    decreases |sts|
  {
    if sts == [] then y == z
    else CanStep(y, sts[0], limit) && Leads(Stepped(y, sts[0], limit), sts[1..], z, limit)
  }

  ghost function StateAfter(s: State, st: Step): State {
    if st.Handles? then Next(s, st.e)
    else if st.ReadFails? || st.WriteFails? then Next(s, Close(st.sid))
    else s
  }

  ghost function OwedAlong(s: State, sts: seq<Step>, i: nat): seq<Response>
    decreases |sts|
  {
    if sts == [] then [] else Owed(s, sts[0], i) + OwedAlong(StateAfter(s, sts[0]), sts[1..], i)
  }

  // ---------------------------------------------------------------- and what it gets

  // A request hands each connection what the event owes it.
  lemma AnsweredOwes(s: State, st: Step, limit: nat, i: nat)
    requires st.Handles? && Answered(s, st.e, st.req, st.live, limit, st.forPrices, st.forDates, st.responses, st.all)
    requires EventOf(st.req, st.sid, st.draws, st.e)
    ensures Inbox(st.all, i) == ReportsFor(s, st.e, st.live, i)
  {
    if st.e.Place? && st.e.token in s.users {
      var u := s.users[st.e.token];
      var p := Start(s.db, u, st.e.side, st.e.usd, st.e.price);
      var o := OrderPlaced(s.db, u, st.e.side, st.e.usd, st.e.price);
      FanOutExact(NewTrades(p, o, Flatten(st.e.batches)), s.sessions, st.live, i);
    }
  }

  lemma StepKeepsAll(y: System, st: Step, limit: nat)
    requires Inv(y.s) && AllSound(y.cs) && CanStep(y, st, limit)
    ensures var z := Stepped(y, st, limit);
      && z.s == StateAfter(y.s, st) && Inv(z.s) && Total(z.s.db) == Total(y.s.db)
      && AllSound(z.cs) && y.cs.Keys <= z.cs.Keys
  {
    match st
    case Handles(sid, _, _, _, _, _, e, all, responses) =>
      StepKeepsInv(y.s, e, limit);
      HandledExact(y.cs, sid, all, responses, sid);
    case Connects(_) =>
    case Wrote(sid) => HandleKeeps(y.cs[sid], WriteDone);
    case ReadFails(sid) =>
      StepKeepsInv(y.s, Close(sid), limit);
      HandleKeeps(y.cs[sid], ReadFailed);
    case WriteFails(sid) =>
      StepKeepsInv(y.s, Close(sid), limit);
      HandleKeeps(y.cs[sid], WriteFailed);
  }

  lemma StepQueuesOwed(y: System, st: Step, limit: nat, i: nat)
    requires AllSound(y.cs) && CanStep(y, st, limit) && i in y.cs
    ensures i in Stepped(y, st, limit).cs
    ensures Stepped(y, st, limit).cs[i].pump.enqueued == y.cs[i].pump.enqueued + Owed(y.s, st, i)
  {
    match st
    case Handles(sid, _, _, _, _, _, e, all, responses) =>
      HandledExact(y.cs, sid, all, responses, i);
      AnsweredOwes(y.s, st, limit, i);
    case Connects(_) =>
      assert y.cs[i].pump.enqueued + [] == y.cs[i].pump.enqueued;
    case _ =>
      HandleKeeps(y.cs[st.sid], ConnEventOf(st));
      assert y.cs[i].pump.enqueued + [] == y.cs[i].pump.enqueued;
  }

  // In every run of the whole server every connection gets exactly what it is owed, in order: what its
  // client has received followed by what is pending is what was queued at the start, followed by the
  // reports and answers of the run; and while it is open, as many more writes as are pending deliver it.
  lemma EveryoneGetsTheirs(y: System, sts: seq<Step>, z: System, limit: nat, i: nat)
    requires Inv(y.s) && AllSound(y.cs) && Leads(y, sts, z, limit) && i in y.cs
    ensures Inv(z.s) && Total(z.s.db) == Total(y.s.db) && AllSound(z.cs) && i in z.cs
    ensures z.cs[i].pump.delivered + z.cs[i].pump.pending == y.cs[i].pump.enqueued + OwedAlong(y.s, sts, i)
    ensures z.cs[i].open ==>
      WrittenTimes(z.cs[i].pump, |z.cs[i].pump.pending|).delivered == y.cs[i].pump.enqueued + OwedAlong(y.s, sts, i)
  {
    QueuedAlong(y, sts, z, limit, i);
    assert ConnSound(z.cs[i]);
    if z.cs[i].open {
      Drains(z.cs[i].pump, |z.cs[i].pump.pending|);
    }
  }

  lemma {:induction false} QueuedAlong(y: System, sts: seq<Step>, z: System, limit: nat, i: nat)
    requires Inv(y.s) && AllSound(y.cs) && Leads(y, sts, z, limit) && i in y.cs
    ensures Inv(z.s) && Total(z.s.db) == Total(y.s.db) && AllSound(z.cs) && i in z.cs
    ensures z.cs[i].pump.enqueued == y.cs[i].pump.enqueued + OwedAlong(y.s, sts, i)
    decreases |sts|
  {
    if sts == [] {
      assert y.cs[i].pump.enqueued + [] == y.cs[i].pump.enqueued;
    } else {
      var next := Stepped(y, sts[0], limit);
      StepKeepsAll(y, sts[0], limit);
      StepQueuesOwed(y, sts[0], limit, i);
      QueuedAlong(next, sts[1..], z, limit, i);
      Reassociate(y.cs[i].pump.enqueued, Owed(y.s, sts[0], i), OwedAlong(next.s, sts[1..], i));
    }
  }

  // ---------------------------------------------------------------- who is listened to

  predicate Fails(st: Step, i: nat) {
    (st.ReadFails? || st.WriteFails?) && st.sid == i
  }

  lemma StepOpen(y: System, st: Step, limit: nat, i: nat)
    requires AllSound(y.cs) && CanStep(y, st, limit)
    ensures var z := Stepped(y, st, limit);
      && (i in y.cs ==> i in z.cs && (z.cs[i].open <==> y.cs[i].open && !Fails(st, i)))
      && (i !in y.cs && i in z.cs ==> z.cs[i].open)
  {
    match st
    case Handles(sid, _, _, _, _, _, e, all, responses) =>
      HandledExact(y.cs, sid, all, responses, if i in y.cs then i else sid);
    case _ =>
  }

  // A connection is open until it fails, and then never again.
  lemma {:induction false} OpenAlong(y: System, sts: seq<Step>, z: System, limit: nat, i: nat)
    requires Inv(y.s) && AllSound(y.cs) && Leads(y, sts, z, limit) && i in y.cs
    ensures i in z.cs && (z.cs[i].open <==> y.cs[i].open && NeverFails(sts, i))
    decreases |sts|
  {
    if sts != [] {
      StepKeepsAll(y, sts[0], limit);
      StepOpen(y, sts[0], limit, i);
      OpenAlong(Stepped(y, sts[0], limit), sts[1..], z, limit, i);
      NeverFailsHead(sts, i);
    }
  }

  ghost predicate NeverFails(sts: seq<Step>, i: nat) {
    forall k :: 0 <= k < |sts| ==> !Fails(sts[k], i)
  }

  lemma NeverFailsHead(sts: seq<Step>, i: nat)
    requires sts != []
    ensures NeverFails(sts, i) <==> !Fails(sts[0], i) && NeverFails(sts[1..], i)
  {
    assert forall k :: 1 <= k < |sts| ==> sts[k] == sts[1..][k - 1];
    assert forall k :: 0 <= k < |sts| - 1 ==> sts[1..][k] == sts[k + 1];
  }

  // A connection that has not failed is open, and waits for a read or a write: one that was open at the
  // start of the run, or was made in it.
  lemma {:induction false} ListensUnlessFailed(y: System, sts: seq<Step>, z: System, limit: nat, i: nat)
    requires Inv(y.s) && AllSound(y.cs) && Leads(y, sts, z, limit) && i in z.cs
    requires i in y.cs ==> y.cs[i].open
    requires NeverFails(sts, i)
    ensures z.cs[i].open && (CanHappen(z.cs[i], WriteDone) || CanHappen(z.cs[i], ReadFailed))
    decreases |sts|
  {
    if sts == [] {
      assert ConnSound(y.cs[i]);
    } else {
      NeverFailsHead(sts, i);
      StepKeepsAll(y, sts[0], limit);
      StepOpen(y, sts[0], limit, i);
      ListensUnlessFailed(Stepped(y, sts[0], limit), sts[1..], z, limit, i);
    }
  }

  // ---------------------------------------------------------------- whose requests are served

  // What happens in a request is what is told.
  lemma StepIsTold(y: System, st: Step, limit: nat)
    requires Inv(y.s) && CanStep(y, st, limit) && st.Handles?
    ensures Told(y.s, Stepped(y, st, limit).s, st.req, st.sid, limit, st.forPrices, st.forDates, st.responses)
  {
    AnswersAreTold(y.s, st.e, st.req, st.sid, st.draws, st.live, limit, st.forPrices, st.forDates,
                   st.responses, st.all);
  }

  // No connection that holds the token fails.
  ghost predicate NoneDrops(y: System, sts: seq<Step>, limit: nat, token: string)
    decreases |sts|
  {
    sts == [] ||
    (CanStep(y, sts[0], limit)
     && ((sts[0].ReadFails? || sts[0].WriteFails?) && sts[0].sid in y.s.ids ==> y.s.ids[sts[0].sid] != token)
     && NoneDrops(Stepped(y, sts[0], limit), sts[1..], limit, token))
  }

  // A live token of the account of this name and digest.
  ghost predicate StandsFor(s: State, token: string, name: string, digest: string) {
    && token in s.users && s.users[token] in s.db.accounts
    && s.db.accounts[s.users[token]].name == name && s.db.accounts[s.users[token]].digest == digest
  }

  lemma EventKeepsToken(s: State, e: Event, limit: nat, token: string, name: string, digest: string)
    requires Inv(s) && Enabled(s, e, limit) && StandsFor(s, token, name, digest) && !DropsToken(s, e, token)
    ensures StandsFor(Next(s, e), token, name, digest)
  {
    StepKeepsToken(s, e, limit, token);
    StepKeepsPeople(s, e, limit, s.users[token]);
  }

  lemma StepKeepsStanding(y: System, st: Step, limit: nat, token: string, name: string, digest: string)
    requires Inv(y.s) && CanStep(y, st, limit) && StandsFor(y.s, token, name, digest)
    requires (st.ReadFails? || st.WriteFails?) && st.sid in y.s.ids ==> y.s.ids[st.sid] != token
    ensures StandsFor(Stepped(y, st, limit).s, token, name, digest)
  {
    match st
    case Handles(_, _, _, _, _, _, e, _, _) => EventKeepsToken(y.s, e, limit, token, name, digest);
    case ReadFails(sid) => EventKeepsToken(y.s, Close(sid), limit, token, name, digest);
    case WriteFails(sid) => EventKeepsToken(y.s, Close(sid), limit, token, name, digest);
    case _ =>
  }

  lemma {:induction false} TokenSurvives(y: System, sts: seq<Step>, z: System, limit: nat, token: string,
                                         name: string, digest: string)
    requires Inv(y.s) && AllSound(y.cs) && Leads(y, sts, z, limit) && NoneDrops(y, sts, limit, token)
    requires StandsFor(y.s, token, name, digest)
    ensures StandsFor(z.s, token, name, digest) && Inv(z.s)
    decreases |sts|
  {
    if sts != [] {
      StepKeepsAll(y, sts[0], limit);
      StepKeepsStanding(y, sts[0], limit, token, name, digest);
      TokenSurvives(Stepped(y, sts[0], limit), sts[1..], z, limit, token, name, digest);
    }
  }

  // A token that was answered is served, for the account of the name and digest it was asked with, until a
  // connection that holds it fails.
  lemma AnsweredTokenServes(y: System, login: Step, sts: seq<Step>, z: System, later: Step, limit: nat, token: string)
    requires Inv(y.s) && AllSound(y.cs) && CanStep(y, login, limit)
    requires login.Handles? && login.responses == [AccessAuth(token)]
    requires Leads(Stepped(y, login, limit), sts, z, limit)
    requires NoneDrops(Stepped(y, login, limit), sts, limit, token)
    requires CanStep(z, later, limit) && later.Handles? && TokenOf(later.req) == Some(token)
    ensures login.req.Authorization? || login.req.Registration?
    ensures StandsFor(z.s, token, login.req.name, login.req.digest)
    ensures later.responses != [Bad("not authorized")]
  {
    var x := Stepped(y, login, limit);
    StepKeepsAll(y, login, limit);
    StepIsTold(y, login, limit);
    AnsweredTokenIsBound(y.s, x.s, login.req, login.sid, limit, login.forPrices, login.forDates,
                         login.responses, token);
    TokenSurvives(x, sts, z, limit, token, login.req.name, login.req.digest);
    StepIsTold(z, later, limit);
    TurnedAwayIff(z.s, Stepped(z, later, limit).s, later.req, later.sid, limit, later.forPrices, later.forDates,
                  later.responses);
  }

  // ---------------------------------------------------------------- what the balance tells

  // The balances answered before and after a placement of the same user differ by the dollars and roubles
  // of the trades its plan tells.
  lemma BalancesDiffer(s: State, t: State, token: string, side: Side, usd: int, price: int, limit: nat,
                       responses: seq<Response>, r1: int, d1: int, r2: int, d2: int,
                       rub: int, dollars: int)
    requires Inv(s) && token in s.users && LotTold(s, t, token, side, usd, price, limit, responses)
    requires BalanceAnswered(s, token, [Balance(r1, d1)]) && BalanceAnswered(t, token, [Balance(r2, d2)])
    requires rub == r2 - r1 && dollars == d2 - d1
    ensures exists plan :: BalancesTold(s, s.users[token], side, usd, price, limit, plan, rub, dollars)
  {
    var u := s.users[token];
    var p, o := Start(s.db, u, side, usd, price), OrderPlaced(s.db, u, side, usd, price);
    var plan :| PlacementTold(p.db, o, limit, plan, t.db, responses);
    StartIsSound(s.db, u, side, usd, price);
    PlacementIsPlan(p, o, limit, plan);
    RoundsInOrder(p, o, limit, plan);
    AccountMoves(p, o, Flatten(plan));
    assert BalancesTold(s, u, side, usd, price, limit, plan, rub, dollars);
  }

  ghost predicate BalancesTold(s: State, u: nat, side: Side, usd: int, price: int, limit: nat, plan: seq<seq<Row>>,
                               rub: int, dollars: int) {
    var p, o := Start(s.db, u, side, usd, price), OrderPlaced(s.db, u, side, usd, price);
    var ts := NewTrades(p, o, Flatten(plan));
    && Plan(p.db, o, limit, plan)
    && dollars == (if side == Buy then Traded(o, ts) else -Traded(o, ts))
    && rub == (if side == Buy then -Cost(o, ts) else Cost(o, ts))
  }
}
