/**
 The request handler of the server, working on the store and on the two session maps.  Calls of
 other sessions' `addResponsesQueue` are collected in an outbox, in the order they are made.
 */
module Server {
  import opened Wrappers
  import opened Tables
  import opened DatabaseManager
  import opened Settlement
  import opened SettlementSteps
  import opened Matching
  import opened Batching
  import opened Exchange
  import opened Quotation
  import opened Protocol
  import opened CommitLog

  // ---------------------------------------------------------------- the query and one settlement

  lemma NextRow(p: Progress, o: Row, rows: seq<Row>, i: nat)
    requires i < |rows| && Walk(p, o, rows[..i]).acc != o.usd
    ensures Walk(p, o, rows[..i + 1]) == SettleRow(Walk(p, o, rows[..i]), o, rows[i])
    ensures rows[i..] != [] && rows[i..][0] == rows[i] && rows[i..][1..] == rows[i + 1..]
  {
    assert rows[..i + 1] == rows[..i] + [rows[i]];
    WalkSnoc(p, o, rows[..i], rows[i]);
  }

  // A reading statement of a transaction in which nothing has failed.
  method Read(db: DataBaseManager) returns (t: Db)
    requires !db.aborted
    modifies db`worker
    ensures db.worker == Some(t) && t == old(db.Current())
  {
    var r := db.Select();
    t := r.value;
  }

  // Reads a batch of crossing lots.  Lots of equal price may come in any order.
  method QueryCrossing(db: DataBaseManager, o: Row, limit: nat) returns (rows: seq<Row>)
    requires !db.aborted
    modifies db`worker
    ensures db.worker == Some(old(db.Current()))
    ensures Snapshot(old(db.Current()), o, rows, limit)
  {
    var t := Read(db);
    var left := Candidates(t, o);
    rows := [];
    while left != {} && |rows| < limit
      invariant db.worker == Some(t)
      invariant SortedPrefix(t, o, rows) && |rows| <= limit
      invariant left == Candidates(t, o) - Ids(rows)
      decreases left
    {
      ghost var highest := HighestPrice(t, left);
      var c :| c in left && forall x :: x in left ==> t.lots[x].price <= t.lots[c].price;
      PrefixGrows(t, o, rows, c);
      rows := rows + [RowOf(t, c)];
      left := left - {c};
    }
    if left == {} {
      forall c | c in Candidates(t, o) ensures c in Ids(rows) {
        assert c !in left;
      }
    }
  }

  // No statement of a settlement fails, even if an earlier settlement has taken the row's owner out of
  // the book since the batch was read: the parties exist and the recorded lots are new to the history.
  lemma SettlementNeverFails(db: Db, o: Row, row: Row)
    requires Good(db) && Open(db, o) && Fresh(db, o, row)
    ensures if o.usd > row.usd then
              && CanCloseOne(db, row.id, o.id)
              && SellerOf(db, row.id, o.id) == SellerIn(o, row) && BuyerOf(db, row.id, o.id) == BuyerIn(o, row)
            else if o.usd < row.usd then
              && CanCloseOne(db, o.id, row.id)
              && SellerOf(db, o.id, row.id) == SellerIn(o, row) && BuyerOf(db, o.id, row.id) == BuyerIn(o, row)
            else if o.side == Sell then CanCloseBoth(db, o.id, row.id, o.user, row.user)
            else CanCloseBoth(db, row.id, o.id, row.user, o.user)
  {
    OwnerThere(db, o.id);
    OwnerThere(db, row.id);
  }

  // One iteration of the matching loop: the three branches and the settlement they call.
  method SettleOne(db: DataBaseManager, o: Row, row: Row, acc: int, ghost p: Progress)
    returns (next: int, info: TransactionInfo)
    requires db.Valid() && !db.aborted && db.Current() == p.db && p.acc == acc
    requires Good(p.db) && Pending(p, o) && Fresh(p.db, o, row)
    modifies db
    ensures db.Valid() && db.worker.None? && db.log == old(db.log) + [db.committed]
    ensures db.committed == Settle(p.db, o, row)
    ensures next == SettleRow(p, o, row).acc && info == InfoOf(p.db, o, row)
  {
    SettlementNeverFails(p.db, o, row);
    if o.usd > row.usd {
      next := acc + row.usd;
      var r := CloseRequest(db, row.id, o.id, row.usd, row.price);
      info := r.value;
    } else if o.usd < row.usd {
      next := o.usd;
      var r := CloseRequest(db, o.id, row.id, o.usd, row.price);
      info := r.value;
    } else {
      next := o.usd;
      if o.side == Sell {
        var r := CloseTwoWayRequests(db, o.id, row.id, o.user, row.user, o.usd, row.price);
        info := r.value;
      } else {
        var r := CloseTwoWayRequests(db, row.id, o.id, row.user, o.user, o.usd, row.price);
        info := r.value;
      }
    }
  }

  // ---------------------------------------------------------------- the server

  // The state inside the matching loop: `q` is what the settled rows have led to.
  ghost predicate InLoop(p: Progress, o: Row, q: Progress, sessions: map<nat, nat>, live: set<nat>,
                         responses: seq<Response>, outbox: seq<Delivery>) {
    && Good(q.db)
    && (q.acc != o.usd ==> Pending(q, o))
    && responses == [SuccessReq(o.id, false)] + Reports(q.trades)
    && outbox == FanOut(q.trades, sessions, live)
  }

  // One report more, to one connection more if the counterparty has one.
  lemma OneReportMore(ts: seq<Trade>, t: Trade, sessions: map<nat, nat>, live: set<nat>)
    ensures Reports(ts + [t]) == Reports(ts) + [Report(t.info)]
    ensures FanOut(ts + [t], sessions, live)
         == FanOut(ts, sessions, live)
            + (if Reachable(t.row.user, sessions, live) then [Delivery(sessions[t.row.user], Report(t.info))] else [])
  {
    assert (ts + [t])[..|ts|] == ts;
  }

  // The state inside the inner loop, after i rows.
  ghost predicate InBatch(o: Row, start: Progress, rows: seq<Row>, i: nat, q: Progress, commits: seq<Db>)
    requires i <= |rows|
  {
    && q == Walk(start, o, rows[..i])
    && commits == Commits(start, o, rows[..i])
    && (q.acc != o.usd ==> Ready(q.db, o, rows[i..]))
    && (q.acc != o.usd ==> Good(q.db) && Pending(q, o))
  }

  lemma BatchAdvances(o: Row, start: Progress, rows: seq<Row>, i: nat, q: Progress, commits: seq<Db>)
    requires i < |rows| && InBatch(o, start, rows, i, q, commits) && q.acc != o.usd
    ensures Fresh(q.db, o, rows[i])
    ensures InBatch(o, start, rows, i + 1, SettleRow(q, o, rows[i]), commits + [Settle(q.db, o, rows[i])])
  {
    NextRow(start, o, rows, i);
    CommitsSnoc(start, o, rows, i);
    StepKeeps(q, o, rows[i..]);
  }

  // One settled row later.
  lemma LoopAdvances(p: Progress, o: Row, q: Progress, row: Row, sessions: map<nat, nat>, live: set<nat>,
                     responses: seq<Response>, outbox: seq<Delivery>)
    requires InLoop(p, o, q, sessions, live, responses, outbox) && q.acc != o.usd && Fresh(q.db, o, row)
    ensures var r := SettleRow(q, o, row);
      var report := Report(InfoOf(q.db, o, row));
      InLoop(p, o, r, sessions, live, responses + [report],
             outbox + (if Reachable(row.user, sessions, live) then [Delivery(sessions[row.user], report)] else []))
  {
    assert Ready(q.db, o, [row]);
    StepKeeps(q, o, [row]);
    AnswerMore(o, q.trades, Trade(row, q.acc, InfoOf(q.db, o, row)), sessions, live, responses, outbox);
  }

  lemma AnswerMore(o: Row, ts: seq<Trade>, t: Trade, sessions: map<nat, nat>, live: set<nat>,
                   responses: seq<Response>, outbox: seq<Delivery>)
    requires responses == [SuccessReq(o.id, false)] + Reports(ts) && outbox == FanOut(ts, sessions, live)
    ensures responses + [Report(t.info)] == [SuccessReq(o.id, false)] + Reports(ts + [t])
    ensures outbox + (if Reachable(t.row.user, sessions, live)
                      then [Delivery(sessions[t.row.user], Report(t.info))] else [])
         == FanOut(ts + [t], sessions, live)
  {
    OneReportMore(ts, t, sessions, live);
  }

  lemma AllAnswered(p: Progress, o: Row, rows: seq<Row>, q: Progress, sessions: map<nat, nat>, live: set<nat>,
                    responses: seq<Response>, outbox: seq<Delivery>)
    requires InLoop(p, o, q, sessions, live, responses, outbox) && q == Walk(p, o, rows) && p.trades == []
    ensures PlacementAnswered(p, o, rows, sessions, live, responses, outbox)
  {
    WalkTrades(p, o, rows);
    assert p.trades + NewTrades(p, o, rows) == NewTrades(p, o, rows);
  }

  class Server {
    const db: DataBaseManager
    var activeUsers: map<string, nat>
    var activeSessions: map<nat, nat>
    var userIds: map<nat, string>   // the user ids the connections hold
    ghost var met: set<nat>
    ghost var cut: set<nat>

    ghost function View(): State
      reads this, db
    {
      State(db.committed, activeUsers, activeSessions, userIds, met, cut)
    }

    ghost predicate Valid()
      reads this, db
    {
      db.Valid() && db.Clean() && Inv(View()) && SoundLog(db.log)
    }

    // The process starts on the tables that a state of a run has committed: nobody is logged in.
    constructor (db: DataBaseManager, ghost s: State)
      requires db.Valid() && db.Clean() && SoundLog(db.log)
      requires Inv(s) && s.db == db.committed
      ensures this.db == db && Valid() && View() == Next(s, Crash)
    {
      this.db := db;
      activeUsers, activeSessions, userIds := map[], map[], map[];
      met, cut := s.met, s.cut;
      new;
      StepKeepsInv(s, Crash, 0);
    }

    // Queues a report to the registered connection of a counterparty, if it still exists.
    method SendReport(user: nat, info: TransactionInfo, live: set<nat>, outbox0: seq<Delivery>)
      returns (outbox: seq<Delivery>)
      ensures outbox == outbox0 + (if Reachable(user, activeSessions, live)
                                   then [Delivery(activeSessions[user], Report(info))] else [])
    {
      outbox := outbox0;
      if user in activeSessions {
        if activeSessions[user] in live {
          outbox := outbox + [Delivery(activeSessions[user], Report(info))];
        }
      }
    }

    // The inner loop: settles the rows of one batch until the request is met.
    method SettleBatch(o: Row, rows: seq<Row>, acc0: int, live: set<nat>, responses0: seq<Response>,
                       outbox0: seq<Delivery>, ghost p: Progress, ghost start: Progress)
      returns (acc: int, responses: seq<Response>, outbox: seq<Delivery>, ghost q: Progress, ghost settled: nat)
      requires db.Valid() && db.Clean()
      requires db.committed == start.db && acc0 == start.acc
      requires Ready(start.db, o, rows) && InLoop(p, o, start, activeSessions, live, responses0, outbox0)
      modifies db
      ensures db.Valid() && db.Clean()
      ensures db.committed == q.db && acc == q.acc
      ensures settled <= |rows| && q == Walk(start, o, rows[..settled])
      ensures settled == |rows| || acc == o.usd
      ensures db.log == old(db.log) + Commits(start, o, rows[..settled])
      ensures InLoop(p, o, q, activeSessions, live, responses, outbox)
    {
      acc, responses, outbox, q := acc0, responses0, outbox0, start;
      ghost var commits: seq<Db> := [];
      var i := 0;
      while i < |rows| && acc != o.usd
        invariant 0 <= i <= |rows|
        invariant db.Valid() && db.Clean()
        invariant db.committed == q.db && acc == q.acc
        invariant InBatch(o, start, rows, i, q, commits)
        invariant db.log == old(db.log) + commits
        invariant InLoop(p, o, q, activeSessions, live, responses, outbox)
      {
        BatchAdvances(o, start, rows, i, q, commits);
        LoopAdvances(p, o, q, rows[i], activeSessions, live, responses, outbox);
        Reassociate(old(db.log), commits, [Settle(q.db, o, rows[i])]);
        var info: TransactionInfo;
        acc, info := SettleOne(db, o, rows[i], acc, q);
        outbox := SendReport(rows[i].user, info, live, outbox);
        responses := responses + [Report(info)];
        commits := commits + [Settle(q.db, o, rows[i])];
        q := SettleRow(q, o, rows[i]);
        i := i + 1;
      }
      settled := i;
    }

    // One round: the batch becomes part of the placement, and unless it meets the request the book shrinks.
    method MatchRound(o: Row, rows: seq<Row>, acc0: int, live: set<nat>, limit: nat, responses0: seq<Response>,
                      outbox0: seq<Delivery>, ghost p: Progress, ghost start: Progress,
                      ghost batches: seq<seq<Row>>, ghost log: seq<Db>)
      returns (acc: int, responses: seq<Response>, outbox: seq<Delivery>, ghost q: Progress)
      requires db.Valid() && db.Clean()
      requires db.committed == start.db && acc0 == start.acc != o.usd
      requires start == Walk(p, o, Flatten(batches)) && Rounds(p, o, limit, batches)
      requires db.log == log + Commits(p, o, Flatten(batches))
      requires rows != [] && Snapshot(start.db, o, rows, limit)
      requires InLoop(p, o, start, activeSessions, live, responses0, outbox0)
      modifies db
      ensures db.Valid() && db.Clean()
      ensures db.committed == q.db && acc == q.acc
      ensures q == Walk(p, o, Flatten(batches + [rows])) && Rounds(p, o, limit, batches + [rows])
      ensures db.log == log + Commits(p, o, Flatten(batches + [rows]))
      ensures InLoop(p, o, q, activeSessions, live, responses, outbox)
      ensures acc != o.usd ==> |Candidates(q.db, o)| < |Candidates(start.db, o)|
    {
      SnapshotReady(start.db, o, rows);
      ghost var i;
      acc, responses, outbox, q, i := SettleBatch(o, rows, acc0, live, responses0, outbox0, p, start);
      RoundEnds(p, o, limit, batches, start, rows, i);
      Reassociate(log, Commits(p, o, Flatten(batches)), Commits(start, o, rows[..i]));
    }

    // The new lot is committed before the matching starts.
    method InsertOrder(user: nat, side: Side, usd: int, price: int) returns (o: Row)
      requires db.Valid() && db.Clean() && Good(db.committed) && user in db.committed.accounts
      modifies db
      ensures db.Valid() && db.Clean()
      ensures o == OrderPlaced(old(db.committed), user, side, usd, price)
      ensures var p := Start(old(db.committed), user, side, usd, price);
        && db.committed == p.db && Good(p.db) && Pending(p, o)
        && db.log == old(db.log) + [p.db]
    {
      StartIsSound(db.committed, user, side, usd, price);
      var inserted := db.MakeTransaction(InsertLot(Lot(user, side, usd, price, true)));
      db.CommitTransactions();
      o := Row(inserted.value.nextLot - 1, user, side, usd, price);
    }

    // Places a lot and matches it against the book until the request is met or nothing crosses.
    method PlaceLot(user: nat, side: Side, usd: int, price: int, live: set<nat>, limit: nat)
      returns (responses: seq<Response>, outbox: seq<Delivery>, ghost batches: seq<seq<Row>>)
      requires db.Valid() && db.Clean() && Good(db.committed) && user in db.committed.accounts && limit > 0
      modifies db
      ensures db.Valid() && db.Clean()
      ensures var s := old(db.committed);
        var p, o := Start(s, user, side, usd, price), OrderPlaced(s, user, side, usd, price);
        var q := Walk(p, o, Flatten(batches));
        && Rounds(p, o, limit, batches) && Finished(q, o)
        && db.committed == q.db
        && db.log == old(db.log) + ([p.db] + Commits(p, o, Flatten(batches)))
        && PlacementAnswered(p, o, Flatten(batches), activeSessions, live, responses, outbox)
    {
      ghost var p := Start(db.committed, user, side, usd, price);
      var o := InsertOrder(user, side, usd, price);
      responses, outbox := [SuccessReq(o.id, false)], [];
      batches := [];
      ghost var q := p;
      ghost var log := db.log;
      var acc := 0;
      while acc != usd
        invariant db.Valid() && db.Clean()
        invariant db.committed == q.db && acc == q.acc
        invariant q == Walk(p, o, Flatten(batches)) && Rounds(p, o, limit, batches)
        invariant db.log == log + Commits(p, o, Flatten(batches))
        invariant InLoop(p, o, q, activeSessions, live, responses, outbox)
        decreases acc != usd, |Candidates(q.db, o)|
      {
        var rows := QueryCrossing(db, o, limit);
        if rows == [] {
          break;
        }
        acc, responses, outbox, q := MatchRound(o, rows, acc, live, limit, responses, outbox, p, q, batches, log);
        batches := batches + [rows];
      }
      Reassociate(old(db.log), [p.db], Commits(p, o, Flatten(batches)));
      AllAnswered(p, o, Flatten(batches), q, activeSessions, live, responses, outbox);
    }

    // Answers one request of connection `sid`.  `draws` are the tokens the generator would produce,
    // `live` the connections that still exist, and the two choices are those of the quotation queries.
    method ExecRequest(req: Request, sid: nat, draws: seq<string>, live: set<nat>, limit: nat,
                       forPrices: seq<nat>, forDates: seq<nat>)
      returns (responses: seq<Response>, outbox: seq<Delivery>, ghost e: Event)
      requires Valid() && limit > 0 && DrawsOk(View(), draws)
      requires Latest(db.committed, forPrices, limit) && Latest(db.committed, forDates, limit)
      modifies this, db
      ensures Valid() && old(db.log) <= db.log
      ensures EventOf(req, sid, draws, e)
      ensures Enabled(old(View()), e, limit) && View() == Next(old(View()), e)
      ensures CrashStates(old(View()), e, limit, db.log[|old(db.log)|..])
      ensures Answered(old(View()), e, req, live, limit, forPrices, forDates, responses, outbox)
      ensures responses != []
      ensures Told(old(View()), View(), req, sid, limit, forPrices, forDates, responses)
      ensures req.GetBalance? || req.Update? || req.OtherRequest? ==> View() == old(View())
      ensures forall token :: responses == [AccessAuth(token)] ==>
        && (req.Authorization? || req.Registration?)
        && Holds(View(), sid, req.name, req.digest, token)
    {
      ghost var s := View();
      responses, outbox, e := SwitchRequest(req, sid, draws, live, limit, forPrices, forDates);
      AnswersAreTold(s, e, req, sid, draws, live, limit, forPrices, forDates, responses, outbox);
      forall token | responses == [AccessAuth(token)]
        ensures (req.Authorization? || req.Registration?) && Holds(View(), sid, req.name, req.digest, token)
      {
        AnsweredTokenIsBound(s, View(), req, sid, limit, forPrices, forDates, responses, token);
      }
    }

    // The cases of the request.
    method SwitchRequest(req: Request, sid: nat, draws: seq<string>, live: set<nat>, limit: nat,
                         forPrices: seq<nat>, forDates: seq<nat>)
      returns (responses: seq<Response>, outbox: seq<Delivery>, ghost e: Event)
      requires Valid() && limit > 0 && DrawsOk(View(), draws)
      requires Latest(db.committed, forPrices, limit) && Latest(db.committed, forDates, limit)
      modifies this, db
      ensures Valid() && old(db.log) <= db.log
      ensures EventOf(req, sid, draws, e)
      ensures Enabled(old(View()), e, limit) && View() == Next(old(View()), e)
      ensures CrashStates(old(View()), e, limit, db.log[|old(db.log)|..])
      ensures Answered(old(View()), e, req, live, limit, forPrices, forDates, responses, outbox)
      ensures responses != []
    {
      ghost var s, log := View(), db.log;
      outbox := [];
      match req
      case SellUsd(token, usd, price) =>
        responses, outbox, e := LotRequest(token, Sell, usd, price, live, limit);
      case BuyUsd(token, usd, price) =>
        responses, outbox, e := LotRequest(token, Buy, usd, price, live, limit);
      case GetBalance(token) =>
        e := ReadOnly;
        responses := BalanceRequest(token);
      case CancelLot(token, id) =>
        e := Cancel(token, id);
        responses := CancelRequest(token, id);
      case Registration(name, digest) =>
        e := Register(sid, name, digest, draws);
        responses := RegistrationRequest(sid, name, digest, draws);
      case Authorization(name, digest) =>
        e := Authorize(sid, name, digest, draws);
        responses := Login(sid, name, digest, draws);
      case Update(token) =>
        e := ReadOnly;
        responses := UpdateRequest(token, limit, forPrices, forDates);
      case OtherRequest =>
        e := ReadOnly;
        responses := [Bad("test response")];
      if !e.Place? {
        FewCommits(s, e, limit, log, db.log);
      }
    }

    method BalanceRequest(token: string) returns (responses: seq<Response>)
      requires Valid()
      modifies db`worker
      ensures Valid() && View() == old(View()) && BalanceAnswered(View(), token, responses)
    {
      if token !in activeUsers {
        return [Bad("not authorized")];
      }
      ghost var s := View();
      assert s.users[token] in s.db.accounts;
      var user := activeUsers[token];
      var usd := Read(db);
      var rub := Read(db);
      responses := [Balance(rub.accounts[user].rub, usd.accounts[user].usd)];
    }

    method UpdateRequest(token: string, limit: nat, forPrices: seq<nat>, forDates: seq<nat>)
      returns (responses: seq<Response>)
      requires Valid() && Latest(db.committed, forPrices, limit) && Latest(db.committed, forDates, limit)
      modifies db`worker
      ensures Valid() && View() == old(View())
      ensures UpdateAnswered(View(), token, limit, forPrices, forDates, responses)
    {
      if token !in activeUsers {
        return [Bad("not authorized")];
      }
      var t := Read(db);
      var quotes := Quotes(t, forPrices, forDates, limit);
      responses := [Quoted(quotes)];
    }

    // A new account falls through to authorization.
    method RegistrationRequest(sid: nat, name: string, digest: string, draws: seq<string>)
      returns (responses: seq<Response>)
      requires Valid() && DrawsOk(View(), draws)
      modifies this`activeUsers, this`activeSessions, this`userIds, db
      ensures Valid() && (db.log == old(db.log) || db.log == old(db.log) + [db.committed])
      ensures View() == Next(old(View()), Register(sid, name, digest, draws))
      ensures RegistrationAnswered(old(View()), name, draws, responses)
      ensures RegistrationTold(old(View()), View(), sid, name, digest, responses)
    {
      ghost var s := View();
      RegistrationsAreTold(s, sid, name, digest, draws);
      var t := Read(db);
      if exists u | u in t.accounts :: t.accounts[u].name == name {
        NameFound(t, name);
        return [Bad("name occupied")];
      }
      NewName(s, name, digest);
      var r := db.MakeTransaction(InsertAccount(name, digest));
      db.CommitTransactions();
      responses := Login(sid, name, digest, draws);
    }

    method LotRequest(token: string, side: Side, usd: int, price: int, live: set<nat>, limit: nat)
      returns (responses: seq<Response>, outbox: seq<Delivery>, ghost e: Event)
      requires Valid() && limit > 0
      modifies db, this`met
      ensures Valid() && old(db.log) <= db.log
      ensures e.Place? && e == Place(token, side, usd, price, e.batches)
      ensures Enabled(old(View()), e, limit) && View() == Next(old(View()), e)
      ensures CrashStates(old(View()), e, limit, db.log[|old(db.log)|..])
      ensures PlaceAnswered(old(View()), e, live, responses, outbox)
      ensures responses != []
    {
      if token !in activeUsers {
        e := Place(token, side, usd, price, []);
        return [Bad("not authorized")], [], e;
      }
      ghost var s := View();
      assert s.users[token] in s.db.accounts;
      var user := activeUsers[token];
      ghost var batches;
      ghost var log := db.log;
      responses, outbox, batches := PlaceLot(user, side, usd, price, live, limit);
      e := Place(token, side, usd, price, batches);
      ghost var p, o := Start(s.db, user, side, usd, price), OrderPlaced(s.db, user, side, usd, price);
      ghost var q := Walk(p, o, Flatten(batches));
      met := if q.acc == usd then met + {s.db.nextLot} else met;
      StepKeepsInv(s, e, limit);
      PlaceCommits(s, e, limit, log, db.log[|log|..]);
      assert log + db.log[|log|..] == db.log;
    }

    method CancelRequest(token: string, id: nat) returns (responses: seq<Response>)
      requires Valid()
      modifies db
      ensures Valid() && (db.log == old(db.log) || db.log == old(db.log) + [db.committed])
      ensures View() == Cancelled(old(View()), token, id)
      ensures CancelAnswered(old(View()), token, id, responses)
      ensures CancelTold(old(View()), View(), token, id, responses)
    {
      ghost var s := View();
      if token !in activeUsers {
        return [Bad("not authorized")];
      }
      var t := Read(db);
      if id in t.lots && t.lots[id].user == activeUsers[token] {
        var u := Read(db);
        if u.lots[id].active {
          CancelSafe(t, id);
          CancelKeepsInv(s, token, id);
          var r := db.MakeTransaction(DeleteLot(id));
          db.CommitTransactions();
          responses := [SuccessReq(id, true)];
        } else {
          responses := [Bad("request has already been made")];
        }
      } else {
        responses := [Bad("this request is not available to you")];
      }
    }

    // Registers the connection under the first drawn token that is not in use.
    method Login(sid: nat, name: string, digest: string, draws: seq<string>) returns (responses: seq<Response>)
      requires Valid() && DrawsOk(View(), draws)
      modifies this`activeUsers, this`activeSessions, this`userIds, db`worker
      ensures Valid() && db.log == old(db.log)
      ensures View() == LoggedIn(old(View()), sid, name, digest, draws)
      ensures LoginAnswered(old(View()), name, digest, draws, responses)
      ensures LoginTold(old(View()), View(), sid, name, digest, responses)
    {
      ghost var s := View();
      LoginsAreTold(s, sid, name, digest, draws);
      LoginKeepsInv(s, sid, name, digest, draws);
      var t := Read(db);
      if !exists u | u in t.accounts :: t.accounts[u].name == name {
        NameNotFound(t, name);
        return [Bad("wrong password or name")];
      }
      var user :| user in t.accounts && t.accounts[user].name == name;
      NameIsUnique(t, name, user);
      if t.accounts[user].digest != digest {
        return [Bad("wrong password or name")];
      }
      var i := 0;
      while draws[i] in activeUsers
        invariant 0 <= i < |draws|
        invariant FirstFresh(draws[i..], activeUsers) == FirstFresh(draws, s.users)
        invariant db.worker == Some(t) && View() == s && Valid()
        decreases |draws| - i
      {
        assert draws[i..][1..] == draws[i + 1..];
        i := i + 1;
      }
      var token := draws[i];
      assert FirstFresh(draws, s.users) == Some(token);
      activeUsers := Emplaced(activeUsers, token, user);
      activeSessions := Emplaced(activeSessions, user, sid);
      userIds := userIds[sid := token];
      responses := [AccessAuth(token)];
    }

    // What closing connection `sid` does to the registry.
    method CloseSession(sid: nat)
      requires Valid()
      modifies this`activeUsers, this`activeSessions
      ensures Valid() && View() == Next(old(View()), Close(sid))
    {
      CloseKeepsInv(View(), sid);
      var token := if sid in userIds then userIds[sid] else JOHN_DOE;
      if token != JOHN_DOE && token in activeUsers {
        activeSessions := activeSessions - {activeUsers[token]};
        activeUsers := activeUsers - {token};
      }
    }
  }

  // ---------------------------------------------------------------- names, and the end of a round

  lemma NameIsUnique(db: Db, name: string, u: nat)
    requires Good(db) && HasName(db, name, u)
    ensures UserNamed(db, name) == Some(u)
    ensures forall v :: HasName(db, name, v) ==> v == u
  {
    forall v | HasName(db, name, v) ensures v == u {
      assert NamesApart(db, u, v);
    }
  }

  lemma NameFound(db: Db, name: string)
    requires exists u :: u in db.accounts && db.accounts[u].name == name
    ensures UserNamed(db, name).Some? && exists u :: HasName(db, name, u)
  {
    var u :| u in db.accounts && db.accounts[u].name == name;
    assert HasName(db, name, u);
  }

  lemma NameNotFound(db: Db, name: string)
    requires !exists u :: u in db.accounts && db.accounts[u].name == name
    ensures UserNamed(db, name).None? && !exists u :: HasName(db, name, u)
  {
  }

  // A name nobody has yet: registering it keeps the invariants, and it is found afterwards.
  lemma NewName(s: State, name: string, digest: string)
    requires Inv(s) && !exists u :: u in s.db.accounts && s.db.accounts[u].name == name
    ensures UserNamed(s.db, name).None? && !exists u :: HasName(s.db, name, u)
    ensures Inv(Registered(s, name, digest)) && Total(Registered(s, name, digest).db) == Total(s.db)
    ensures var r := NewAccount(s.db, name, digest);
      && r == Registered(s, name, digest).db
      && HasName(r, name, s.db.nextUser) && r.accounts[s.db.nextUser].digest == digest
  {
    NameNotFound(s.db, name);
    NewAccountKeepsGood(s.db, name, digest);
    RegisteredKeepsInv(s, name, digest);
  }

  // The bookkeeping of a settled batch.
  lemma RoundEnds(p: Progress, o: Row, limit: nat, batches: seq<seq<Row>>, start: Progress, rows: seq<Row>, i: nat)
    requires Rounds(p, o, limit, batches) && start == Walk(p, o, Flatten(batches)) && start.acc != o.usd
    requires Good(start.db) && Pending(start, o)
    requires rows != [] && Snapshot(start.db, o, rows, limit) && i <= |rows|
    requires i == |rows| || Walk(start, o, rows[..i]).acc == o.usd
    ensures var q := Walk(start, o, rows[..i]);
      && q == Walk(p, o, Flatten(batches + [rows])) && Rounds(p, o, limit, batches + [rows])
      && Commits(p, o, Flatten(batches + [rows])) == Commits(p, o, Flatten(batches)) + Commits(start, o, rows[..i])
      && (q.acc != o.usd ==> |Candidates(q.db, o)| < |Candidates(start.db, o)|)
  {
    var all := batches + [rows];
    assert all[..|batches|] == batches;
    WalkConcat(p, o, Flatten(batches), rows);
    assert rows[..i] + rows[i..] == rows;
    WalkConcat(start, o, rows[..i], rows[i..]);
    CommitsConcat(p, o, Flatten(batches), rows);
    CommitsConcat(start, o, rows[..i], rows[i..]);
    if Walk(start, o, rows).acc != o.usd {
      RoundShrinksBook(start, o, limit, rows);
      SmallerSet(Candidates(Walk(start, o, rows).db, o), Candidates(start.db, o));
    }
  }

  lemma SmallerSet(a: set<nat>, b: set<nat>)
    requires a < b
    ensures |a| < |b|
  {
    assert b == a + (b - a);
    assert b - a != {};
  }
}
