/**
 What holds in every run: the state reached from empty tables, what never changes back from one state
 to a later one, which tokens are live, and who trades with whom at which price.
 */
module Runs {
  import opened Tables
  import opened Schema
  import opened Settlement
  import opened Matching
  import opened Batching
  import opened Exchange

  // In every reachable state the accounts add up to nothing in both currencies, every lot in the history
  // is out of the book and recorded exactly once, and the registry is sound.
  lemma ReachableSound(es: seq<Event>, limit: nat)
    requires ValidRun(INITIAL, es, limit)
    ensures var s := After(INITIAL, es);
      && Inv(s) && Total(s.db) == Money(0, 0)
      && forall j, k :: 0 <= j < |s.db.deals| && 0 <= k < |s.db.deals| ==>
           var l := s.db.deals[j].lot;
           && l in s.db.lots && !s.db.lots[l].active
           && (s.db.deals[k].lot == l <==> j == k)
  {
    InitialInv();
    RunKeepsInv(INITIAL, es, limit);
    var db := After(INITIAL, es).db;
    forall j, k | 0 <= j < |db.deals| && 0 <= k < |db.deals|
      ensures db.deals[j].lot in db.lots && !db.lots[db.deals[j].lot].active
      ensures db.deals[k].lot == db.deals[j].lot <==> j == k
    {
      assert DealSound(db, j) && DealsApart(db, j, k) && DealsApart(db, k, j);
    }
  }

  // In every state of every run the store accepts a statement exactly when its effect keeps the schema.
  lemma AcceptedInRuns(s: State, es: seq<Event>, limit: nat, st: Statement)
    requires Inv(s) && ValidRun(s, es, limit)
    ensures Schematic(After(s, es).db)
    ensures Execute(After(s, es).db, st).Success? <==> Schematic(Unchecked(After(s, es).db, st))
  {
    RunKeepsInv(s, es, limit);
    GoodIsSchematic(After(s, es).db);
    AcceptedIffSchematic(After(s, es).db, st);
  }

  // ---------------------------------------------------------------- what never changes back

  // The history only grows, no lot id is used twice, and a lot keeps its owner, side and price and
  // never returns to the book.
  ghost predicate Later(a: Db, b: Db) {
    && a.deals <= b.deals
    && a.nextLot <= b.nextLot
    && (forall i :: i in b.lots && i < a.nextLot ==>
          && i in a.lots
          && b.lots[i].user == a.lots[i].user && b.lots[i].side == a.lots[i].side && b.lots[i].price == a.lots[i].price
          && (b.lots[i].active ==> a.lots[i].active))
  }

  lemma WalkIsLater(s: State, u: nat, side: Side, usd: int, price: int, limit: nat,
                    batches: seq<seq<Row>>, rows: seq<Row>)
    requires Good(s.db) && u in s.db.accounts && rows <= Flatten(batches)
    requires Rounds(Start(s.db, u, side, usd, price), OrderPlaced(s.db, u, side, usd, price), limit, batches)
    ensures Later(s.db, Walk(Start(s.db, u, side, usd, price), OrderPlaced(s.db, u, side, usd, price), rows).db)
  {
    var p, o := Start(s.db, u, side, usd, price), OrderPlaced(s.db, u, side, usd, price);
    StartIsSound(s.db, u, side, usd, price);
    RoundsInOrder(p, o, limit, batches);
    ReadyPrefix(p.db, o, Flatten(batches), rows);
    WalkKeeps(p, o, rows);
    WalkTrades(p, o, rows);
  }

  lemma StepIsLater(s: State, e: Event, limit: nat)
    requires Inv(s) && Enabled(s, e, limit)
    ensures Later(s.db, Next(s, e).db)
  {
    match e
    case Place(token, side, usd, price, batches) =>
      if token in s.users {
        WalkIsLater(s, s.users[token], side, usd, price, limit, batches, Flatten(batches));
      }
    case CrashInPlace(token, side, usd, price, batches, settled) =>
      WalkIsLater(s, s.users[token], side, usd, price, limit, batches, Flatten(batches)[..settled]);
    case _ =>
  }

  lemma LaterTransitive(a: Db, b: Db, c: Db)
    requires Later(a, b) && Later(b, c)
    ensures Later(a, c)
  {
  }

  // From any state of a run to the end of it.
  lemma {:induction false} RunIsLater(s: State, es: seq<Event>, limit: nat, k: nat)
    requires Inv(s) && ValidRun(s, es, limit) && k <= |es|
    ensures Later(After(s, es[..k]).db, After(s, es).db)
    decreases |es|
  {
    if k == |es| {
      assert es[..k] == es;
    } else {
      var n := |es| - 1;
      assert es[..n][..k] == es[..k];
      RunIsLater(s, es[..n], limit, k);
      RunKeepsInv(s, es[..n], limit);
      StepIsLater(After(s, es[..n]), es[n], limit);
      LaterTransitive(After(s, es[..k]).db, After(s, es[..n]).db, After(s, es).db);
    }
  }

  // ---------------------------------------------------------------- tokens

  predicate IsLogin(e: Event) {
    e.Register? || e.Authorize?
  }

  // A step keeps the binding of a live token, and only a login adds one, drawn for the named account.
  lemma StepKeepsTokens(s: State, e: Event, limit: nat, t: string)
    requires Inv(s) && Enabled(s, e, limit) && t in Next(s, e).users
    ensures t in s.users ==> Next(s, e).users[t] == s.users[t]
    ensures t !in s.users ==> IsLogin(e) && LoggedInBy(Next(s, e).db, Next(s, e).users[t], e, t)
  {
    if IsLogin(e) && t !in s.users {
      FirstFreshIsFresh(e.draws, s.users);
      var db := if e.Register? then Registered(s, e.name, e.digest).db else s.db;
      var u := UserNamed(db, e.name).value;
      assert HasName(db, e.name, u);
    }
  }

  // The token was drawn in this login with the name and the digest of the account.
  ghost predicate LoggedInBy(db: Db, u: nat, e: Event, t: string)
    requires IsLogin(e)
  {
    u in db.accounts && db.accounts[u].name == e.name && db.accounts[u].digest == e.digest && t in e.draws
  }

  // Accounts never disappear, and keep name and digest.
  lemma StepKeepsPeople(s: State, e: Event, limit: nat, u: nat)
    requires Inv(s) && Enabled(s, e, limit) && u in s.db.accounts
    ensures var db := Next(s, e).db;
      && u in db.accounts
      && db.accounts[u].name == s.db.accounts[u].name && db.accounts[u].digest == s.db.accounts[u].digest
  {
    match e
    case Register(_, _, _, _) => assert UserIdUsed(s.db, u);
    case Place(token, side, usd, price, batches) =>
      if token in s.users {
        WalkKeepsPeople(s, s.users[token], side, usd, price, limit, batches, Flatten(batches));
      }
    case CrashInPlace(token, side, usd, price, batches, settled) =>
      WalkKeepsPeople(s, s.users[token], side, usd, price, limit, batches, Flatten(batches)[..settled]);
    case _ =>
  }

  lemma WalkKeepsPeople(s: State, u: nat, side: Side, usd: int, price: int, limit: nat,
                        batches: seq<seq<Row>>, rows: seq<Row>)
    requires Good(s.db) && u in s.db.accounts && rows <= Flatten(batches)
    requires Rounds(Start(s.db, u, side, usd, price), OrderPlaced(s.db, u, side, usd, price), limit, batches)
    ensures SamePeople(s.db, Walk(Start(s.db, u, side, usd, price), OrderPlaced(s.db, u, side, usd, price), rows).db)
  {
    var p, o := Start(s.db, u, side, usd, price), OrderPlaced(s.db, u, side, usd, price);
    StartIsSound(s.db, u, side, usd, price);
    RoundsInOrder(p, o, limit, batches);
    ReadyPrefix(p.db, o, Flatten(batches), rows);
    WalkKeeps(p, o, rows);
  }

  // Whoever holds a live token got it by a login with the right name and digest: in any run that starts
  // with nobody logged in, from empty tables or after a crash.
  lemma {:induction false} TokenMeansLogin(s: State, es: seq<Event>, limit: nat, t: string)
    requires Inv(s) && s.users == map[] && ValidRun(s, es, limit) && t in After(s, es).users
    ensures exists k :: 0 <= k < |es| && IsLogin(es[k]) && LoggedInBy(After(s, es).db, After(s, es).users[t], es[k], t)
  {
    var n := |es| - 1;
    var before := After(s, es[..n]);
    RunKeepsInv(s, es[..n], limit);
    StepKeepsTokens(before, es[n], limit, t);
    if t in before.users {
      TokenMeansLogin(s, es[..n], limit, t);
      var u := before.users[t];
      StepKeepsPeople(before, es[n], limit, u);
      var k :| 0 <= k < n && IsLogin(es[..n][k]) && LoggedInBy(before.db, u, es[..n][k], t);
      assert IsLogin(es[k]) && LoggedInBy(After(s, es).db, u, es[k], t);
    }
  }

  // Without a login no token is added.
  lemma {:induction false} NoLoginNoToken(s: State, es: seq<Event>, limit: nat, t: string)
    requires Inv(s) && ValidRun(s, es, limit) && forall k :: 0 <= k < |es| ==> !IsLogin(es[k])
    requires t in After(s, es).users
    ensures t in s.users && After(s, es).users[t] == s.users[t]
  {
    if es != [] {
      var n := |es| - 1;
      RunKeepsInv(s, es[..n], limit);
      StepKeepsTokens(After(s, es[..n]), es[n], limit, t);
      NoLoginNoToken(s, es[..n], limit, t);
    }
  }

  ghost predicate LiveFrom(s: State, es: seq<Event>, k: nat, t: string) {
    forall j :: k <= j <= |es| ==> t in After(s, es[..j]).users
  }

  // As long as a token is live it stands for the same account, however many logins, closes and
  // requests happen in between.
  lemma {:induction false} TokensStay(s: State, es: seq<Event>, limit: nat, k: nat, t: string)
    requires Inv(s) && ValidRun(s, es, limit) && k <= |es| && LiveFrom(s, es, k, t)
    ensures t in After(s, es).users && t in After(s, es[..k]).users
    ensures After(s, es).users[t] == After(s, es[..k]).users[t]
    decreases |es|
  {
    assert es[..|es|] == es;
    if k < |es| {
      var n := |es| - 1;
      var init := es[..n];
      forall j | k <= j <= |init| ensures t in After(s, init[..j]).users {
        assert init[..j] == es[..j];
      }
      TokensStay(s, init, limit, k, t);
      assert init[..k] == es[..k];
      RunKeepsInv(s, init, limit);
      StepKeepsTokens(After(s, init), es[n], limit, t);
    }
  }

  // After a crash every token is worthless: until somebody logs in again no requests, closing connections
  // or further crashes change anything, whatever tokens they carry.
  lemma {:induction false} CrashLogsOut(s: State, crash: Event, es: seq<Event>, limit: nat)
    requires (crash.Crash? || crash.CrashInPlace?) && Enabled(s, crash, limit)
    requires ValidRun(Next(s, crash), es, limit) && forall k :: 0 <= k < |es| ==> !IsLogin(es[k])
    ensures After(Next(s, crash), es) == Next(s, crash)
    ensures crash.Crash? ==> Next(s, crash).db == s.db
    decreases |es|
  {
    if es != [] {
      CrashLogsOut(s, crash, es[..|es| - 1], limit);
    }
  }

  // After a connection has been closed its token has no effect until it is drawn again.
  lemma ClosedStaysOut(s: State, sid: nat, es: seq<Event>, limit: nat, e: Event)
    requires Inv(s) && sid in s.ids && ValidRun(Next(s, Close(sid)), es, limit)
    requires forall k :: 0 <= k < |es| ==> !IsLogin(es[k])
    requires (e.Place? || e.Cancel?) && e.token == s.ids[sid]
    ensures var t := After(Next(s, Close(sid)), es); Next(t, e) == t
  {
    CloseKeepsInv(s, sid);
    var closed := Next(s, Close(sid));
    if e.token in After(closed, es).users {
      NoLoginNoToken(closed, es, limit, e.token);
    }
  }

  // ---------------------------------------------------------------- who trades, at which price

  // The least the seller takes and the most the buyer pays.
  function SellLimit(o: Row, row: Row): int {
    if o.side == Sell then o.price else row.price
  }

  function BuyLimit(o: Row, row: Row): int {
    if o.side == Buy then o.price else row.price
  }

  // A trade against a resting lot of somebody else, at that lot's price and within both limits, the
  // owner of the `sell` lot being the seller; its report names the first lot it records.
  ghost predicate Fair(db: Db, o: Row, t: Trade) {
    && t.row.id in db.lots && t.row.id < o.id && t.row == RowOf(db, t.row.id)
    && t.row.user != o.user && t.row.side != o.side
    && t.info.price == t.row.price
    && t.info.id == NewDeals(o, t.row)[0].lot
    && SellLimit(o, t.row) <= t.info.price <= BuyLimit(o, t.row)
    && t.info.seller == NameOf(db, if o.side == Sell then o.user else t.row.user)
    && t.info.buyer == NameOf(db, if o.side == Buy then o.user else t.row.user)
  }

  function DealsOf(o: Row, ts: seq<Trade>): seq<Deal> {
    if ts == [] then [] else NewDeals(o, ts[0].row) + DealsOf(o, ts[1..])
  }

  lemma {:induction false} WalkDeals(p: Progress, o: Row, rows: seq<Row>)
    ensures Walk(p, o, rows).db.deals == p.db.deals + DealsOf(o, NewTrades(p, o, rows))
    decreases |rows|
  {
    if rows != [] && p.acc != o.usd {
      var q := SettleRow(p, o, rows[0]);
      SettleDeals(p.db, o, rows[0]);
      WalkDeals(q, o, rows[1..]);
      assert NewTrades(p, o, rows)[1..] == NewTrades(q, o, rows[1..]);
      assert p.db.deals + NewDeals(o, rows[0]) + DealsOf(o, NewTrades(q, o, rows[1..]))
          == p.db.deals + (NewDeals(o, rows[0]) + DealsOf(o, NewTrades(q, o, rows[1..])));
    }
  }

  lemma InfoNames(db: Db, o: Row, row: Row)
    ensures var info := InfoOf(db, o, row);
      && info.seller == NameOf(db, SellerIn(o, row)) && info.buyer == NameOf(db, BuyerIn(o, row))
      && info.id == NewDeals(o, row)[0].lot
  {
  }

  lemma NamesKept(a: Db, b: Db)
    requires BookShrinks(a, b)
    ensures forall u :: NameOf(b, u) == NameOf(a, u)
  {
  }

  lemma {:induction false} WalkNames(p: Progress, o: Row, rows: seq<Row>, i: nat)
    requires Good(p.db) && Ready(p.db, o, rows) && (p.acc != o.usd ==> Pending(p, o))
    requires i < |NewTrades(p, o, rows)|
    ensures var t := NewTrades(p, o, rows)[i];
      && t.info.seller == NameOf(p.db, SellerIn(o, t.row)) && t.info.buyer == NameOf(p.db, BuyerIn(o, t.row))
      && t.info.id == NewDeals(o, t.row)[0].lot
    decreases |rows|
  {
    InfoNames(p.db, o, rows[0]);
    if i > 0 {
      var q := SettleRow(p, o, rows[0]);
      StepKeeps(p, o, rows);
      NamesKept(p.db, q.db);
      assert NewTrades(p, o, rows)[1..] == NewTrades(q, o, rows[1..]);
      assert rows[0].usd < o.usd;
      WalkNames(q, o, rows[1..], i - 1);
    }
  }

  lemma CandidateFair(db: Db, o: Row, row: Row, t: Trade)
    requires Good(db) && row.id in Candidates(db, o) && row == RowOf(db, row.id)
    requires o.id in db.lots && db.lots[o.id].user == o.user && db.nextLot == o.id + 1
    requires t.row == row && t.info.price == row.price && t.info.id == NewDeals(o, row)[0].lot
    requires t.info.seller == NameOf(db, SellerIn(o, row)) && t.info.buyer == NameOf(db, BuyerIn(o, row))
    ensures Fair(db, o, t)
  {
    OwnerThere(db, row.id);
  }

  // Every trade of a placement, whole or cut off, is fair, and the history gets exactly the deals of its
  // trades.
  lemma PlacementFair(p: Progress, o: Row, limit: nat, batches: seq<seq<Row>>, rows: seq<Row>)
    requires Good(p.db) && Pending(p, o) && Rounds(p, o, limit, batches) && p.db.nextLot == o.id + 1
    requires rows <= Flatten(batches)
    ensures AllFair(p, o, rows, Walk(p, o, rows).db)
  {
    var ts := NewTrades(p, o, rows);
    RoundsInOrder(p, o, limit, batches);
    ReadyPrefix(p.db, o, Flatten(batches), rows);
    WalkTrades(p, o, rows);
    WalkDeals(p, o, rows);
    forall i | 0 <= i < |ts| ensures Fair(p.db, o, ts[i]) {
      WalkNames(p, o, rows, i);
      assert rows[i] == Flatten(batches)[i];
      CandidateFair(p.db, o, rows[i], ts[i]);
    }
  }

  ghost predicate AllFair(p: Progress, o: Row, rows: seq<Row>, after: Db) {
    && (forall i :: 0 <= i < |NewTrades(p, o, rows)| ==> Fair(p.db, o, NewTrades(p, o, rows)[i]))
    && after.deals == p.db.deals + DealsOf(o, NewTrades(p, o, rows))
  }

  // The rows an event offers to the matching loop: all that were read, or those up to the crash.
  function Offered(e: Event): seq<Row>
    requires e.Place? || e.CrashInPlace?
  {
    var flat := Flatten(e.batches);
    if e.CrashInPlace? && e.settled <= |flat| then flat[..e.settled] else flat
  }

  // So it is for every settlement in every run, those before a crash in the middle of a placement
  // included; and nothing but a placement adds to the history.
  lemma EveryTradeFair(s: State, es: seq<Event>, limit: nat, k: nat)
    requires Inv(s) && ValidRun(s, es, limit) && k < |es|
    ensures var t, e, after := After(s, es[..k]), es[k], After(s, es[..k + 1]).db;
      if (e.Place? || e.CrashInPlace?) && e.token in t.users then
        var u := t.users[e.token];
        AllFair(Start(t.db, u, e.side, e.usd, e.price), OrderPlaced(t.db, u, e.side, e.usd, e.price),
                Offered(e), after)
      else after.deals == t.db.deals
  {
    PrefixValid(s, es, limit, k);
    PrefixValid(s, es, limit, k + 1);
    RunKeepsInv(s, es[..k], limit);
    assert es[..k + 1][..k] == es[..k];
    StepFair(After(s, es[..k]), es[k], limit);
  }

  lemma StepFair(t: State, e: Event, limit: nat)
    requires Inv(t) && Enabled(t, e, limit)
    ensures if (e.Place? || e.CrashInPlace?) && e.token in t.users then
              var u := t.users[e.token];
              AllFair(Start(t.db, u, e.side, e.usd, e.price), OrderPlaced(t.db, u, e.side, e.usd, e.price),
                      Offered(e), Next(t, e).db)
            else Next(t, e).db.deals == t.db.deals
  {
    if (e.Place? || e.CrashInPlace?) && e.token in t.users {
      var u := t.users[e.token];
      StartIsSound(t.db, u, e.side, e.usd, e.price);
      PlacementFair(Start(t.db, u, e.side, e.usd, e.price), OrderPlaced(t.db, u, e.side, e.usd, e.price), limit,
                    e.batches, Offered(e));
    }
  }

  lemma {:induction false} PrefixValid(s: State, es: seq<Event>, limit: nat, k: nat)
    requires ValidRun(s, es, limit) && k <= |es|
    ensures ValidRun(s, es[..k], limit)
    decreases |es|
  {
    if k == |es| {
      assert es[..k] == es;
    } else {
      PrefixValid(s, es[..|es| - 1], limit, k);
      assert es[..|es| - 1][..k] == es[..k];
    }
  }
}
