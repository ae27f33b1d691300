/**
 The requests and responses of the server: who is told what, and what a request does to the state.
 */
module Protocol {
  import opened Wrappers
  import opened Tables
  import opened Settlement
  import opened Matching
  import opened Batching
  import opened Exchange
  import opened Quotation
  import opened Planning

  datatype Request =
    | SellUsd(token: string, usd: int, price: int)
    | BuyUsd(token: string, usd: int, price: int)
    | GetBalance(token: string)
    | CancelLot(token: string, id: nat)
    | Authorization(name: string, digest: string)
    | Registration(name: string, digest: string)
    | Update(token: string)
    | OtherRequest

  datatype Response =
    | SuccessReq(lot: nat, toCancel: bool)
    | Balance(rub: int, usd: int)
    | AccessAuth(token: string)
    | Quoted(quotes: seq<Quote>)
    | Bad(message: string)
    | Report(info: TransactionInfo)

  datatype Delivery = Delivery(session: nat, response: Response)

  // ---------------------------------------------------------------- what is reported, and to whom

  function Reports(ts: seq<Trade>): seq<Response> {
    if ts == [] then [] else Reports(ts[..|ts| - 1]) + [Report(ts[|ts| - 1].info)]
  }

  // The registered connection of a counterparty, if it is still there.
  predicate Reachable(user: nat, sessions: map<nat, nat>, live: set<nat>) {
    user in sessions && sessions[user] in live
  }

  function FanOut(ts: seq<Trade>, sessions: map<nat, nat>, live: set<nat>): seq<Delivery> {
    if ts == [] then []
    else
      var n := |ts| - 1;
      var user := ts[n].row.user;
      FanOut(ts[..n], sessions, live)
      + (if Reachable(user, sessions, live) then [Delivery(sessions[user], Report(ts[n].info))] else [])
  }

  function Inbox(ds: seq<Delivery>, session: nat): seq<Response> {
    if ds == [] then []
    else
      var n := |ds| - 1;
      Inbox(ds[..n], session) + (if ds[n].session == session then [ds[n].response] else [])
  }

  function TradesOf(ts: seq<Trade>, sessions: map<nat, nat>, session: nat): seq<Trade> {
    if ts == [] then []
    else
      var n := |ts| - 1;
      var user := ts[n].row.user;
      TradesOf(ts[..n], sessions, session) + (if user in sessions && sessions[user] == session then [ts[n]] else [])
  }

  lemma {:induction false} ReportsAre(ts: seq<Trade>)
    ensures |Reports(ts)| == |ts| && forall i :: 0 <= i < |ts| ==> Reports(ts)[i] == Report(ts[i].info)
  {
    if ts != [] {
      ReportsAre(ts[..|ts| - 1]);
    }
  }

  // Trades with users registered for the connection are its trades, others are not; and the trades of a
  // connection are those of any first part followed by those of the rest.
  lemma TradeOf(t: Trade, sessions: map<nat, nat>, session: nat)
    ensures TradesOf([t], sessions, session) == if (t.row.user, session) in sessions.Items then [t] else []
  {
    assert [t][..0] == [];
  }

  lemma {:induction false} TradesOfConcat(a: seq<Trade>, b: seq<Trade>, sessions: map<nat, nat>, session: nat)
    ensures TradesOf(a + b, sessions, session) == TradesOf(a, sessions, session) + TradesOf(b, sessions, session)
    decreases |b|
  {
    if b == [] {
      assert a + b == a;
    } else {
      var n := |b| - 1;
      TradesOfConcat(a, b[..n], sessions, session);
      var all := a + b;
      assert all[..|all| - 1] == a + b[..n] && all[|all| - 1] == b[n];
      Reassociate(TradesOf(a, sessions, session), TradesOf(b[..n], sessions, session),
                  TradesOf(b, sessions, session)[|TradesOf(b[..n], sessions, session)|..]);
    }
  }

  // What is left for the other connections.
  function Without(ds: seq<Delivery>, session: nat): seq<Delivery> {
    if ds == [] then []
    else
      var n := |ds| - 1;
      Without(ds[..n], session) + (if ds[n].session == session then [] else [ds[n]])
  }

  lemma InboxConcat(ds: seq<Delivery>, d: Delivery, session: nat)
    ensures Inbox(ds + [d], session) == Inbox(ds, session) + (if d.session == session then [d.response] else [])
  {
    assert (ds + [d])[..|ds|] == ds;
  }

  lemma {:induction false} InboxWithout(ds: seq<Delivery>, session: nat, i: nat)
    ensures Inbox(Without(ds, session), i) == if i == session then [] else Inbox(ds, i)
  {
    if ds != [] {
      var n := |ds| - 1;
      InboxWithout(ds[..n], session, i);
      var before := Without(ds[..n], session);
      if ds[n].session == session {
        assert before + [] == before;
      } else {
        InboxConcat(before, ds[n], i);
      }
    }
  }

  // A live connection is queued the reports of exactly the trades with the users registered for it,
  // each once and in order; a connection that is gone gets nothing.
  lemma {:induction false} FanOutExact(ts: seq<Trade>, sessions: map<nat, nat>, live: set<nat>, session: nat)
    ensures Inbox(FanOut(ts, sessions, live), session)
         == if session in live then Reports(TradesOf(ts, sessions, session)) else []
  {
    if ts != [] {
      var n := |ts| - 1;
      FanOutExact(ts[..n], sessions, live, session);
      var before := FanOut(ts[..n], sessions, live);
      var user := ts[n].row.user;
      if Reachable(user, sessions, live) {
        InboxConcat(before, Delivery(sessions[user], Report(ts[n].info)), session);
      } else {
        assert before + [] == before;
      }
      var mine := TradesOf(ts[..n], sessions, session);
      assert (mine + [ts[n]])[..|mine|] == mine;
      assert mine + [] == mine;
    }
  }

  // ---------------------------------------------------------------- requests, events and answers

  ghost predicate EventOf(req: Request, sid: nat, draws: seq<string>, e: Event) {
    match req
    case SellUsd(token, usd, price) => e.Place? && e == Place(token, Sell, usd, price, e.batches)
    case BuyUsd(token, usd, price) => e.Place? && e == Place(token, Buy, usd, price, e.batches)
    case CancelLot(token, id) => e == Cancel(token, id)
    case Authorization(name, digest) => e == Authorize(sid, name, digest, draws)
    case Registration(name, digest) => e == Register(sid, name, digest, draws)
    case _ => e == ReadOnly
  }

  // What a placement answers and sends out.
  ghost predicate PlacementAnswered(p: Progress, o: Row, rows: seq<Row>, sessions: map<nat, nat>, live: set<nat>,
                                    responses: seq<Response>, outbox: seq<Delivery>) {
    && responses == [SuccessReq(o.id, false)] + Reports(NewTrades(p, o, rows))
    && outbox == FanOut(NewTrades(p, o, rows), sessions, live)
  }

  ghost predicate PlaceAnswered(s: State, e: Event, live: set<nat>, responses: seq<Response>, outbox: seq<Delivery>)
    requires e.Place?
  {
    if e.token !in s.users then responses == [Bad("not authorized")] && outbox == []
    else
      var u := s.users[e.token];
      PlacementAnswered(Start(s.db, u, e.side, e.usd, e.price), OrderPlaced(s.db, u, e.side, e.usd, e.price),
                        Flatten(e.batches), s.sessions, live, responses, outbox)
  }

  ghost predicate CancelAnswered(s: State, token: string, id: nat, responses: seq<Response>) {
    responses == [
      if token !in s.users then Bad("not authorized")
      else if id !in s.db.lots || s.db.lots[id].user != s.users[token] then Bad("this request is not available to you")
      else if !s.db.lots[id].active then Bad("request has already been made")
      else SuccessReq(id, true)]
  }

  ghost predicate LoginAnswered(s: State, name: string, digest: string, draws: seq<string>, responses: seq<Response>)
  {
    if exists u :: HasName(s.db, name, u) && s.db.accounts[u].digest == digest
    then FirstFresh(draws, s.users).Some? && responses == [AccessAuth(FirstFresh(draws, s.users).value)]
    else responses == [Bad("wrong password or name")]
  }

  ghost predicate BalanceAnswered(s: State, token: string, responses: seq<Response>) {
    if token !in s.users then responses == [Bad("not authorized")]
    else s.users[token] in s.db.accounts
         && responses == [Balance(s.db.accounts[s.users[token]].rub, s.db.accounts[s.users[token]].usd)]
  }

  ghost predicate UpdateAnswered(s: State, token: string, limit: nat, forPrices: seq<nat>, forDates: seq<nat>,
                                 responses: seq<Response>) {
    if token !in s.users then responses == [Bad("not authorized")]
    else |responses| == 1 && responses[0].Quoted?
         && |responses[0].quotes| == (if |s.db.deals| < limit then |s.db.deals| else limit)
         && QuotationOf(s.db, forPrices, forDates, responses[0].quotes)
  }

  // A new account is logged in at once.
  ghost predicate RegistrationAnswered(s: State, name: string, draws: seq<string>, responses: seq<Response>) {
    if exists u :: HasName(s.db, name, u) then responses == [Bad("name occupied")]
    else FirstFresh(draws, s.users).Some? && responses == [AccessAuth(FirstFresh(draws, s.users).value)]
  }

  ghost predicate Answered(s: State, e: Event, req: Request, live: set<nat>, limit: nat,
                           forPrices: seq<nat>, forDates: seq<nat>,
                           responses: seq<Response>, outbox: seq<Delivery>) {
    && (!e.Place? ==> outbox == [])
    && match req
       case SellUsd(_, _, _) => e.Place? && PlaceAnswered(s, e, live, responses, outbox)
       case BuyUsd(_, _, _) => e.Place? && PlaceAnswered(s, e, live, responses, outbox)
       case GetBalance(token) => BalanceAnswered(s, token, responses)
       case CancelLot(token, id) => CancelAnswered(s, token, id, responses)
       case Authorization(name, digest) => e.Authorize? && LoginAnswered(s, name, digest, e.draws, responses)
       case Registration(name, _) => e.Register? && RegistrationAnswered(s, name, e.draws, responses)
       case Update(token) => UpdateAnswered(s, token, limit, forPrices, forDates, responses)
       case OtherRequest => responses == [Bad("test response")]
  }

  // ---------------------------------------------------------------- what a request does, told without events

  // A placement follows a plan, answers the id of the new lot, and then one report per trade.
  ghost predicate PlacementTold(db: Db, o: Row, limit: nat, plan: seq<seq<Row>>, after: Db, responses: seq<Response>) {
    var p := Progress(db, 0, []);
    var ts := NewTrades(p, o, Flatten(plan));
    && Plan(db, o, limit, plan)
    && after == Walk(p, o, Flatten(plan)).db
    && |responses| == |ts| + 1
    && responses[0] == SuccessReq(o.id, false)
    && forall i :: 0 <= i < |ts| ==> responses[i + 1] == Report(ts[i].info)
  }

  ghost predicate FollowsPlan(db: Db, o: Row, limit: nat, after: Db, responses: seq<Response>) {
    exists plan :: PlacementTold(db, o, limit, plan, after, responses)
  }

  ghost predicate LotTold(s: State, t: State, token: string, side: Side, usd: int, price: int, limit: nat,
                          responses: seq<Response>) {
    if token !in s.users then t == s && responses == [Bad("not authorized")]
    else
      var id := s.db.nextLot;
      var o := Row(id, s.users[token], side, usd, price);
      var placed := s.db.(lots := s.db.lots[id := Lot(s.users[token], side, usd, price, true)], nextLot := id + 1);
      && t.users == s.users && t.sessions == s.sessions && t.ids == s.ids && t.cut == s.cut
      && FollowsPlan(placed, o, limit, t.db, responses)
  }

  // A refused cancel changes nothing, and says why; a granted one takes this lot and nothing else.
  ghost predicate CancelTold(s: State, t: State, token: string, id: nat, responses: seq<Response>) {
    if token in s.users && id in s.db.lots && s.db.lots[id].user == s.users[token] && s.db.lots[id].active
    then t == s.(db := s.db.(lots := s.db.lots - {id})) && responses == [SuccessReq(id, true)]
    else
      && t == s
      && responses == [Bad(if token !in s.users then "not authorized"
                           else if id in s.db.lots && s.db.lots[id].user == s.users[token]
                           then "request has already been made"
                           else "this request is not available to you")]
  }

  // The answered token is the one that was bound, to the account of this name and digest.
  ghost predicate LoginTold(s: State, t: State, sid: nat, name: string, digest: string, responses: seq<Response>) {
    if exists u :: HasName(s.db, name, u) && s.db.accounts[u].digest == digest
    then exists u, token ::
      HasName(s.db, name, u) && s.db.accounts[u].digest == digest
      && Entered(s, t, sid, u, token) && responses == [AccessAuth(token)]
    else t == s && responses == [Bad("wrong password or name")]
  }

  // An occupied name changes nothing; a free one gets an empty account and is logged in.
  ghost predicate RegistrationTold(s: State, t: State, sid: nat, name: string, digest: string,
                                   responses: seq<Response>) {
    if exists u :: HasName(s.db, name, u) then t == s && responses == [Bad("name occupied")]
    else
      var u := s.db.nextUser;
      var grown := s.db.(accounts := s.db.accounts[u := Account(name, digest, 0, 0)], nextUser := u + 1);
      exists token :: Entered(s.(db := grown), t, sid, u, token) && responses == [AccessAuth(token)]
  }

  // From state s to state t, request `req` of connection `sid` was answered with `responses`.
  ghost predicate Told(s: State, t: State, req: Request, sid: nat, limit: nat, forPrices: seq<nat>, forDates: seq<nat>,
                       responses: seq<Response>) {
    match req
    case SellUsd(token, usd, price) => LotTold(s, t, token, Sell, usd, price, limit, responses)
    case BuyUsd(token, usd, price) => LotTold(s, t, token, Buy, usd, price, limit, responses)
    case GetBalance(token) => t == s && BalanceAnswered(s, token, responses)
    case CancelLot(token, id) => CancelTold(s, t, token, id, responses)
    case Authorization(name, digest) => LoginTold(s, t, sid, name, digest, responses)
    case Registration(name, digest) => RegistrationTold(s, t, sid, name, digest, responses)
    case Update(token) => t == s && UpdateAnswered(s, token, limit, forPrices, forDates, responses)
    case OtherRequest => t == s && responses == [Bad("test response")]
  }

  lemma PlacementIsTold(p: Progress, o: Row, limit: nat, batches: seq<seq<Row>>, sessions: map<nat, nat>,
                        live: set<nat>, responses: seq<Response>, outbox: seq<Delivery>)
    requires Good(p.db) && Pending(p, o) && p == Progress(p.db, 0, [])
    requires Rounds(p, o, limit, batches) && Finished(Walk(p, o, Flatten(batches)), o)
    requires PlacementAnswered(p, o, Flatten(batches), sessions, live, responses, outbox)
    ensures FollowsPlan(p.db, o, limit, Walk(p, o, Flatten(batches)).db, responses)
  {
    PlacementIsPlan(p, o, limit, batches);
    ReportsAre(NewTrades(p, o, Flatten(batches)));
    assert PlacementTold(p.db, o, limit, batches, Walk(p, o, Flatten(batches)).db, responses);
  }

  lemma PlaceStep(s: State, e: Event, limit: nat, p: Progress, o: Row)
    requires e.Place? && e.token in s.users && Enabled(s, e, limit)
    requires p == Start(s.db, s.users[e.token], e.side, e.usd, e.price)
    requires o == OrderPlaced(s.db, s.users[e.token], e.side, e.usd, e.price)
    ensures var t := Next(s, e);
      && t.users == s.users && t.sessions == s.sessions && t.ids == s.ids && t.cut == s.cut
      && t.db == Walk(p, o, Flatten(e.batches)).db
    ensures Rounds(p, o, limit, e.batches) && Finished(Walk(p, o, Flatten(e.batches)), o)
  {
  }

  lemma LotToldFrom(s: State, t: State, token: string, side: Side, usd: int, price: int, limit: nat, p: Progress,
                    o: Row, responses: seq<Response>)
    requires token in s.users
    requires p == Start(s.db, s.users[token], side, usd, price)
    requires o == OrderPlaced(s.db, s.users[token], side, usd, price)
    requires t.users == s.users && t.sessions == s.sessions && t.ids == s.ids && t.cut == s.cut
    requires FollowsPlan(p.db, o, limit, t.db, responses)
    ensures LotTold(s, t, token, side, usd, price, limit, responses)
  {
  }

  lemma LotIsTold(s: State, e: Event, limit: nat, live: set<nat>, responses: seq<Response>, outbox: seq<Delivery>)
    requires Good(s.db) && (forall t :: t in s.users ==> s.users[t] in s.db.accounts)
    requires e.Place? && Enabled(s, e, limit) && PlaceAnswered(s, e, live, responses, outbox)
    ensures LotTold(s, Next(s, e), e.token, e.side, e.usd, e.price, limit, responses)
  {
    if e.token in s.users {
      var u := s.users[e.token];
      var p, o := Start(s.db, u, e.side, e.usd, e.price), OrderPlaced(s.db, u, e.side, e.usd, e.price);
      StartIsSound(s.db, u, e.side, e.usd, e.price);
      PlaceStep(s, e, limit, p, o);
      PlacementIsTold(p, o, limit, e.batches, s.sessions, live, responses, outbox);
      LotToldFrom(s, Next(s, e), e.token, e.side, e.usd, e.price, limit, p, o, responses);
    }
  }

  lemma LoginIsTold(s: State, sid: nat, name: string, digest: string, draws: seq<string>, responses: seq<Response>)
    requires Inv(s) && DrawsOk(s, draws) && LoginAnswered(s, name, digest, draws, responses)
    ensures LoginTold(s, LoggedIn(s, sid, name, digest, draws), sid, name, digest, responses)
  {
    LoginBinds(s, sid, name, digest, draws);
    if u :| HasName(s.db, name, u) && s.db.accounts[u].digest == digest {
      var t :| FirstUnused(draws, s.users, t) && Entered(s, LoggedIn(s, sid, name, digest, draws), sid, u, t);
      FirstIsOnly(draws, s.users, t);
    }
  }

  lemma LoginsAreTold(s: State, sid: nat, name: string, digest: string, draws: seq<string>)
    requires Inv(s) && DrawsOk(s, draws)
    ensures forall responses :: LoginAnswered(s, name, digest, draws, responses) ==>
      LoginTold(s, LoggedIn(s, sid, name, digest, draws), sid, name, digest, responses)
  {
    forall responses | LoginAnswered(s, name, digest, draws, responses)
      ensures LoginTold(s, LoggedIn(s, sid, name, digest, draws), sid, name, digest, responses)
    {
      LoginIsTold(s, sid, name, digest, draws, responses);
    }
  }

  lemma RegistrationsAreTold(s: State, sid: nat, name: string, digest: string, draws: seq<string>)
    requires Inv(s) && DrawsOk(s, draws)
    ensures forall responses :: RegistrationAnswered(s, name, draws, responses) ==>
      RegistrationTold(s, Next(s, Register(sid, name, digest, draws)), sid, name, digest, responses)
  {
    forall responses | RegistrationAnswered(s, name, draws, responses)
      ensures RegistrationTold(s, Next(s, Register(sid, name, digest, draws)), sid, name, digest, responses)
    {
      RegistrationIsTold(s, sid, name, digest, draws, responses);
    }
  }

  lemma FirstIsOnly(draws: seq<string>, users: map<string, nat>, t: string)
    requires FirstUnused(draws, users, t) && FirstFresh(draws, users).Some?
    ensures FirstFresh(draws, users).value == t
  {
    FirstFreshIsFresh(draws, users);
  }

  lemma RegistrationIsTold(s: State, sid: nat, name: string, digest: string, draws: seq<string>,
                           responses: seq<Response>)
    requires Inv(s) && DrawsOk(s, draws) && RegistrationAnswered(s, name, draws, responses)
    ensures RegistrationTold(s, Next(s, Register(sid, name, digest, draws)), sid, name, digest, responses)
  {
    RegisterOpens(s, sid, name, digest, draws);
    if !exists v :: HasName(s.db, name, v) {
      var u, r := s.db.nextUser, Next(s, Register(sid, name, digest, draws));
      var grown := s.db.(accounts := s.db.accounts[u := Account(name, digest, 0, 0)], nextUser := u + 1);
      var t :| FirstUnused(draws, s.users, t) && Entered(s.(db := grown), r, sid, u, t);
      FirstIsOnly(draws, s.users, t);
    }
  }

  // Events and their answers do what is told.
  lemma AnswersAreTold(s: State, e: Event, req: Request, sid: nat, draws: seq<string>, live: set<nat>, limit: nat,
                       forPrices: seq<nat>, forDates: seq<nat>, responses: seq<Response>, outbox: seq<Delivery>)
    requires Inv(s) && EventOf(req, sid, draws, e) && Enabled(s, e, limit)
    requires Answered(s, e, req, live, limit, forPrices, forDates, responses, outbox)
    ensures Told(s, Next(s, e), req, sid, limit, forPrices, forDates, responses)
  {
    match req
    case SellUsd(_, _, _) => LotIsTold(s, e, limit, live, responses, outbox);
    case BuyUsd(_, _, _) => LotIsTold(s, e, limit, live, responses, outbox);
    case CancelLot(token, id) => CancelKeepsInv(s, token, id);
    case Authorization(name, digest) => LoginIsTold(s, sid, name, digest, draws, responses);
    case Registration(name, digest) => RegistrationIsTold(s, sid, name, digest, draws, responses);
    case _ =>
  }

  // ---------------------------------------------------------------- what a client may rely on

  // A token comes only as the answer to a login, and it is live, held by the connection that asked, and
  // stands for the account of this name and digest.
  ghost predicate Holds(t: State, sid: nat, name: string, digest: string, token: string) {
    && token in t.users && sid in t.ids && t.ids[sid] == token
    && t.users[token] in t.db.accounts
    && t.db.accounts[t.users[token]].name == name && t.db.accounts[t.users[token]].digest == digest
  }

  lemma AnsweredTokenIsBound(s: State, t: State, req: Request, sid: nat, limit: nat, forPrices: seq<nat>,
                             forDates: seq<nat>, responses: seq<Response>, token: string)
    requires Told(s, t, req, sid, limit, forPrices, forDates, responses) && responses == [AccessAuth(token)]
    ensures req.Authorization? || req.Registration?
    ensures token !in s.users && Holds(t, sid, req.name, req.digest, token)
  {
  }

  function TokenOf(req: Request): Option<string> {
    match req
    case SellUsd(token, _, _) => Some(token)
    case BuyUsd(token, _, _) => Some(token)
    case GetBalance(token) => Some(token)
    case CancelLot(token, _) => Some(token)
    case Update(token) => Some(token)
    case _ => None
  }

  // A request is turned away if and only if its token is not live.
  lemma TurnedAwayIff(s: State, t: State, req: Request, sid: nat, limit: nat, forPrices: seq<nat>, forDates: seq<nat>,
                      responses: seq<Response>)
    requires Told(s, t, req, sid, limit, forPrices, forDates, responses) && TokenOf(req).Some?
    ensures responses == [Bad("not authorized")] <==> TokenOf(req).value !in s.users
  {
  }

  // A refusal changes nothing.
  lemma RefusalChangesNothing(s: State, t: State, req: Request, sid: nat, limit: nat, forPrices: seq<nat>,
                              forDates: seq<nat>, responses: seq<Response>)
    requires Told(s, t, req, sid, limit, forPrices, forDates, responses)
    requires |responses| == 1 && responses[0].Bad?
    ensures t == s
  {
  }
}
