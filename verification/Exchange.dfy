/**
 Whole runs of the exchange: requests, closing connections, crashes and restarts in any order.
 What the database and the random numbers leave open (which batches a query returns, which
 tokens are drawn) is part of the event, so the state after an event is a function of it.
 */
module Exchange {
  import opened Wrappers
  import opened Tables
  import opened Settlement
  import opened Matching
  import opened Batching

  // The user id of a connection that is not logged in.
  const JOHN_DOE := "John Doe"

  datatype State = State(
    db: Db,
    users: map<string, nat>,   // token -> account
    sessions: map<nat, nat>,   // account -> connection that gets its reports
    ids: map<nat, string>,     // connection -> its token, once logged in
    met: set<nat>,             // history: lots whose loop ended with the accumulated amount equal to the request
    cut: set<nat>)             // history: lots whose loop was ended by a crash

  const INITIAL := State(EMPTY, map[], map[], map[], {}, {})

  datatype Event =
    | Register(sid: nat, name: string, digest: string, draws: seq<string>)
    | Authorize(sid: nat, name: string, digest: string, draws: seq<string>)
    | Place(token: string, side: Side, usd: int, price: int, batches: seq<seq<Row>>)
    | Cancel(token: string, id: nat)
    | ReadOnly                  // balance, quotation and unknown requests
    | Close(sid: nat)
    | Crash                     // between requests, or inside a transaction of one
    | CrashInPlace(token: string, side: Side, usd: int, price: int, batches: seq<seq<Row>>, settled: nat)

  // ---------------------------------------------------------------- the parts of a step

  ghost predicate HasName(db: Db, name: string, u: nat) {
    u in db.accounts && db.accounts[u].name == name
  }

  ghost function UserNamed(db: Db, name: string): Option<nat> {
    if u: nat :| HasName(db, name, u) then Some(u) else None
  }

  // The first drawn token that is not in use.
  function FirstFresh(draws: seq<string>, users: map<string, nat>): Option<string> {
    if draws == [] then None
    else if draws[0] !in users then Some(draws[0])
    else FirstFresh(draws[1..], users)
  }

  // An entry that is already there stays.
  function Emplaced<K, V>(m: map<K, V>, k: K, v: V): map<K, V> {
    if k in m then m else m[k := v]
  }

  ghost function LoggedIn(s: State, sid: nat, name: string, digest: string, draws: seq<string>): State {
    match UserNamed(s.db, name)
    case None => s
    case Some(u) =>
      if u !in s.db.accounts || s.db.accounts[u].digest != digest then s
      else match FirstFresh(draws, s.users)
        case None => s
        case Some(token) =>
          s.(users := Emplaced(s.users, token, u), sessions := Emplaced(s.sessions, u, sid), ids := s.ids[sid := token])
  }

  ghost function Registered(s: State, name: string, digest: string): State {
    if UserNamed(s.db, name).Some? then s else s.(db := NewAccount(s.db, name, digest))
  }

  function LotPlaced(db: Db, user: nat, side: Side, usd: int, price: int): Db {
    NewLot(db, Lot(user, side, usd, price, true))
  }

  function OrderPlaced(db: Db, user: nat, side: Side, usd: int, price: int): Row {
    Row(db.nextLot, user, side, usd, price)
  }

  // The start of the matching loop: the incoming lot is inserted and committed.
  function Start(db: Db, user: nat, side: Side, usd: int, price: int): Progress {
    Progress(LotPlaced(db, user, side, usd, price), 0, [])
  }

  function Cancelled(s: State, token: string, id: nat): State {
    if token in s.users && id in s.db.lots && s.db.lots[id].user == s.users[token] && s.db.lots[id].active
    then s.(db := RemoveLot(s.db, id))
    else s
  }

  function Closed(s: State, sid: nat): State {
    var token := if sid in s.ids then s.ids[sid] else JOHN_DOE;
    if token != JOHN_DOE && token in s.users
    then s.(sessions := s.sessions - {s.users[token]}, users := s.users - {token})
    else s
  }

  // Only the committed tables outlive the process.
  function Restarted(s: State): State {
    s.(users := map[], sessions := map[], ids := map[])
  }

  // ---------------------------------------------------------------- steps and runs

  // Tokens are digests, never the name of an anonymous connection, and some draw succeeds.
  ghost predicate DrawsOk(s: State, draws: seq<string>) {
    JOHN_DOE !in draws && FirstFresh(draws, s.users).Some?
  }

  ghost predicate Enabled(s: State, e: Event, limit: nat) {
    match e
    case Register(_, _, _, draws) => DrawsOk(s, draws)
    case Authorize(_, _, _, draws) => DrawsOk(s, draws)
    case Place(token, side, usd, price, batches) =>
      token in s.users ==>
        var u := s.users[token];
        var p, o := Start(s.db, u, side, usd, price), OrderPlaced(s.db, u, side, usd, price);
        Rounds(p, o, limit, batches) && Finished(Walk(p, o, Flatten(batches)), o)
    case CrashInPlace(token, side, usd, price, batches, settled) =>
      && token in s.users
      && settled <= |Flatten(batches)|
      && var u := s.users[token];
         Rounds(Start(s.db, u, side, usd, price), OrderPlaced(s.db, u, side, usd, price), limit, batches)
    case _ => true
  }

  ghost function Next(s: State, e: Event): State {
    match e
    case Register(sid, name, digest, draws) =>
      // a new account falls through to authorization, an occupied name does not
      if UserNamed(s.db, name).Some? then s
      else LoggedIn(Registered(s, name, digest), sid, name, digest, draws)
    case Authorize(sid, name, digest, draws) => LoggedIn(s, sid, name, digest, draws)
    case Place(token, side, usd, price, batches) =>
      if token !in s.users then s
      else
        var u := s.users[token];
        var o := OrderPlaced(s.db, u, side, usd, price);
        var q := Walk(Start(s.db, u, side, usd, price), o, Flatten(batches));
        s.(db := q.db, met := if q.acc == usd then s.met + {o.id} else s.met)
    case Cancel(token, id) => Cancelled(s, token, id)
    case ReadOnly => s
    case Close(sid) => Closed(s, sid)
    case Crash => Restarted(s)
    case CrashInPlace(token, side, usd, price, batches, settled) =>
      if token !in s.users || settled > |Flatten(batches)| then s
      else
        var u := s.users[token];
        var o := OrderPlaced(s.db, u, side, usd, price);
        var q := Walk(Start(s.db, u, side, usd, price), o, Flatten(batches)[..settled]);
        Restarted(s.(db := q.db, cut := s.cut + {o.id}))
  }

  ghost function After(s: State, es: seq<Event>): State {
    if es == [] then s else Next(After(s, es[..|es| - 1]), es[|es| - 1])
  }

  ghost predicate ValidRun(s: State, es: seq<Event>, limit: nat) {
    es == [] ||
    (ValidRun(s, es[..|es| - 1], limit) && Enabled(After(s, es[..|es| - 1]), es[|es| - 1], limit))
  }

  // ---------------------------------------------------------------- invariants

  // Two lots that could trade with each other.
  predicate CrossPair(a: Lot, b: Lot) {
    && a.user != b.user && a.side != b.side
    && (if a.side == Sell then a.price <= b.price else b.price <= a.price)
  }

  predicate PairSettled(s: State, a: nat, b: nat) {
    (a in s.db.lots && b in s.db.lots && a < b && s.db.lots[a].active && s.db.lots[b].active
     && CrossPair(s.db.lots[a], s.db.lots[b]))
    ==> b in s.met || b in s.cut
  }

  // Of two lots in the book that cross, the later one left its loop because the accumulated amount
  // equalled the request, or was cut off by a crash.
  ghost predicate BookUncrossed(s: State) {
    forall a, b :: PairSettled(s, a, b)
  }

  ghost predicate HasToken(s: State, u: nat) {
    exists t :: t in s.users && s.users[t] == u
  }

  ghost predicate RegistrySound(s: State) {
    && JOHN_DOE !in s.users
    && (forall t :: t in s.users ==> s.users[t] in s.db.accounts)
    && (forall u :: u in s.sessions ==> HasToken(s, u))
  }

  ghost predicate Inv(s: State) {
    Good(s.db) && RegistrySound(s) && BookUncrossed(s)
  }

  // ---------------------------------------------------------------- registration and login

  lemma NewAccountKeepsGood(db: Db, name: string, digest: string)
    requires Good(db) && UserNamed(db, name).None?
    ensures Good(NewAccount(db, name, digest)) && Total(NewAccount(db, name, digest)) == Total(db)
  {
    var r := NewAccount(db, name, digest);
    assert forall u :: !HasName(db, name, u);
    forall u: nat ensures UserIdUsed(r, u) {
      assert UserIdUsed(db, u);
    }
    forall u: nat, v: nat ensures NamesApart(r, u, v) {
      assert NamesApart(db, u, v) && !HasName(db, name, u) && !HasName(db, name, v);
    }
    forall i: nat ensures LotSound(r, i) {
      assert LotSound(db, i);
    }
    forall k: nat ensures DealSound(r, k) {
      assert DealSound(db, k);
    }
    forall j: nat, k: nat ensures DealsApart(r, j, k) {
      assert DealsApart(db, j, k);
    }
    assert UserIdUsed(db, db.nextUser);
    MoneyBelowAgree(r.accounts, db.accounts, db.nextUser);
  }

  // Token t was drawn, is not in use, and all draws before it are.
  ghost predicate FirstUnused(draws: seq<string>, users: map<string, nat>, t: string) {
    t !in users && exists i :: 0 <= i < |draws| && draws[i] == t && forall j :: 0 <= j < i ==> draws[j] in users
  }

  lemma {:induction false} FirstFreshIsFresh(draws: seq<string>, users: map<string, nat>)
    requires FirstFresh(draws, users).Some?
    ensures var t := FirstFresh(draws, users).value; t in draws && FirstUnused(draws, users, t)
  {
    if draws[0] in users {
      var rest := draws[1..];
      FirstFreshIsFresh(rest, users);
      var t := FirstFresh(draws, users).value;
      var i :| 0 <= i < |rest| && rest[i] == t && forall j :: 0 <= j < i ==> rest[j] in users;
      forall j | 0 <= j < i + 1 ensures draws[j] in users {
        assert j > 0 ==> draws[j] == rest[j - 1];
      }
      assert draws[i + 1] == t;
    } else {
      assert draws[0] == FirstFresh(draws, users).value;
    }
  }

  lemma LoginKeepsInv(s: State, sid: nat, name: string, digest: string, draws: seq<string>)
    requires Inv(s) && DrawsOk(s, draws)
    ensures Inv(LoggedIn(s, sid, name, digest, draws))
  {
    var r := LoggedIn(s, sid, name, digest, draws);
    FirstFreshIsFresh(draws, s.users);
    forall a: nat, b: nat ensures PairSettled(r, a, b) {
      assert PairSettled(s, a, b);
    }
    forall u | u in r.sessions ensures HasToken(r, u) {
      if u in s.sessions {
        assert HasToken(s, u);
        var t :| t in s.users && s.users[t] == u;
        assert t in r.users && r.users[t] == u;
      } else {
        var t := FirstFresh(draws, s.users).value;
        assert t in r.users && r.users[t] == u;
      }
    }
  }

  lemma CloseKeepsInv(s: State, sid: nat)
    requires Inv(s)
    ensures Inv(Closed(s, sid))
  {
    var r := Closed(s, sid);
    forall a: nat, b: nat ensures PairSettled(r, a, b) {
      assert PairSettled(s, a, b);
    }
    forall u | u in r.sessions ensures HasToken(r, u) {
      assert HasToken(s, u);
      var t :| t in s.users && s.users[t] == u;
      assert t in r.users && r.users[t] == u;
    }
  }

  // From s to t connection `sid` was logged in to account u with token `token`: nothing else changed, and
  // an account that already has a connection for its reports keeps it.
  ghost predicate Entered(s: State, t: State, sid: nat, u: nat, token: string) {
    && token !in s.users && token != JOHN_DOE
    && t.users == s.users[token := u]
    && t.sessions == (if u in s.sessions then s.sessions else s.sessions[u := sid])
    && t.ids == s.ids[sid := token]
    && t.db == s.db && t.met == s.met && t.cut == s.cut
  }

  // A login with the right digest binds the first unused drawn token to the named account and to the
  // connection; any other login, also with a name nobody has, changes nothing.
  lemma LoginBinds(s: State, sid: nat, name: string, digest: string, draws: seq<string>)
    requires Inv(s) && DrawsOk(s, draws)
    ensures var r := LoggedIn(s, sid, name, digest, draws);
      && (forall u :: HasName(s.db, name, u) && s.db.accounts[u].digest == digest ==>
            exists t :: FirstUnused(draws, s.users, t) && Entered(s, r, sid, u, t))
      && ((forall u :: HasName(s.db, name, u) ==> s.db.accounts[u].digest != digest) ==> r == s)
  {
    var r := LoggedIn(s, sid, name, digest, draws);
    FirstFreshIsFresh(draws, s.users);
    var t := FirstFresh(draws, s.users).value;
    forall u | HasName(s.db, name, u) && s.db.accounts[u].digest == digest ensures Entered(s, r, sid, u, t) {
      var v := UserNamed(s.db, name).value;
      assert HasName(s.db, name, v) && NamesApart(s.db, u, v);
    }
    if UserNamed(s.db, name).Some? {
      assert HasName(s.db, name, UserNamed(s.db, name).value);
    }
  }

  // Registering a free name opens an empty account and logs the connection in with the first unused drawn
  // token; an occupied name changes nothing.
  lemma RegisterOpens(s: State, sid: nat, name: string, digest: string, draws: seq<string>)
    requires Inv(s) && DrawsOk(s, draws)
    ensures var r := Next(s, Register(sid, name, digest, draws));
      var u := s.db.nextUser;
      if exists v :: HasName(s.db, name, v) then r == s
      else
        var grown := s.db.(accounts := s.db.accounts[u := Account(name, digest, 0, 0)], nextUser := u + 1);
        && u !in s.db.accounts && u !in s.sessions
        && exists t :: FirstUnused(draws, s.users, t) && Entered(s.(db := grown), r, sid, u, t)
  {
    var u := s.db.nextUser;
    assert UserIdUsed(s.db, u);
    if !exists v :: HasName(s.db, name, v) {
      var m := Registered(s, name, digest);
      assert UserNamed(s.db, name).None?;
      RegisteredKeepsInv(s, name, digest);
      assert HasName(m.db, name, u) && m.db.accounts[u].digest == digest;
      LoginBinds(m, sid, name, digest, draws);
      forall v | v in s.sessions ensures v in s.db.accounts {
        assert HasToken(s, v);
      }
    } else {
      assert UserNamed(s.db, name).Some?;
    }
  }

  // Closing a logged-in connection removes its token and the account's session entry, and nothing else;
  // closing one that is not logged in, or twice, changes nothing.
  lemma CloseLogsOut(s: State, sid: nat)
    requires Inv(s)
    ensures var r := Closed(s, sid);
      && (if sid in s.ids && s.ids[sid] in s.users then
            && s.ids[sid] !in r.users && s.users[s.ids[sid]] !in r.sessions
            && (forall t :: t in s.users && t != s.ids[sid] ==> t in r.users && r.users[t] == s.users[t])
            && (forall u :: u in s.sessions && u != s.users[s.ids[sid]] ==>
                  u in r.sessions && r.sessions[u] == s.sessions[u])
            && |r.users| == |s.users| - 1
            && r.users.Keys == s.users.Keys - {s.ids[sid]}
            && r.sessions.Keys == s.sessions.Keys - {s.users[s.ids[sid]]}
          else r == s)
      && Closed(r, sid) == r && r.db == s.db && r.ids == s.ids && r.met == s.met && r.cut == s.cut
  {
    if sid in s.ids && s.ids[sid] in s.users {
      var t := s.ids[sid];
      assert (s.users - {t}).Keys == s.users.Keys - {t};
    }
  }

  // ---------------------------------------------------------------- lots

  lemma StartIsSound(db: Db, user: nat, side: Side, usd: int, price: int)
    requires Good(db) && user in db.accounts
    ensures var p, o := Start(db, user, side, usd, price), OrderPlaced(db, user, side, usd, price);
      && Execute(db, InsertLot(Lot(user, side, usd, price, true))) == Success(p.db)
      && Good(p.db) && Total(p.db) == Total(db) && Pending(p, o) && o.id !in db.lots
  {
    var p, o := Start(db, user, side, usd, price), OrderPlaced(db, user, side, usd, price);
    var r := p.db;
    assert LotSound(db, o.id);
    forall u: nat ensures UserIdUsed(r, u) {
      assert UserIdUsed(db, u);
    }
    forall u: nat, v: nat ensures NamesApart(r, u, v) {
      assert NamesApart(db, u, v);
    }
    forall i: nat ensures LotSound(r, i) {
      assert LotSound(db, i);
    }
    forall k: nat ensures DealSound(r, k) {
      assert DealSound(db, k);
    }
    forall j: nat, k: nat ensures DealsApart(r, j, k) {
      assert DealsApart(db, j, k);
    }
    forall k | 0 <= k < |r.deals| ensures r.deals[k].lot != o.id {
      assert DealSound(db, k);
    }
  }

  // Cancelling removes a lot of the requester that is in the book: the statement cannot violate the
  // reference from the history, and money, history and all other lots stay as they were.
  lemma CancelSafe(db: Db, id: nat)
    requires Good(db) && id in db.lots && db.lots[id].active
    ensures Execute(db, DeleteLot(id)) == Success(RemoveLot(db, id))
    ensures var r := RemoveLot(db, id);
      && Good(r) && Total(r) == Total(db)
      && id !in r.lots && r.lots == db.lots - {id} && r.(lots := db.lots) == db
  {
    ActiveUnrecorded(db, id);
    var r := RemoveLot(db, id);
    forall u: nat ensures UserIdUsed(r, u) {
      assert UserIdUsed(db, u);
    }
    forall u: nat, v: nat ensures NamesApart(r, u, v) {
      assert NamesApart(db, u, v);
    }
    forall i: nat ensures LotSound(r, i) {
      assert LotSound(db, i);
    }
    forall k: nat ensures DealSound(r, k) {
      assert DealSound(db, k);
    }
    forall j: nat, k: nat ensures DealsApart(r, j, k) {
      assert DealsApart(db, j, k);
    }
  }

  // A cancel takes effect exactly on a lot of the requester that is in the book, and changes nothing else.
  lemma CancelKeepsInv(s: State, token: string, id: nat)
    requires Inv(s)
    ensures Inv(Cancelled(s, token, id)) && Total(Cancelled(s, token, id).db) == Total(s.db)
    ensures token in s.users && id in s.db.lots && s.db.lots[id].user == s.users[token] && s.db.lots[id].active
       <==> id in s.db.lots && id !in Cancelled(s, token, id).db.lots
    ensures forall i :: i in s.db.lots && i != id ==>
              i in Cancelled(s, token, id).db.lots && Cancelled(s, token, id).db.lots[i] == s.db.lots[i]
    ensures Cancelled(s, token, id).db.lots.Keys <= s.db.lots.Keys
    ensures Cancelled(s, token, id).db.(lots := s.db.lots) == s.db
    ensures Cancelled(s, token, id).(db := s.db) == s
  {
    var r := Cancelled(s, token, id);
    if r != s {
      CancelSafe(s.db, id);
      forall a: nat, b: nat ensures PairSettled(r, a, b) {
        assert PairSettled(s, a, b);
      }
      forall u | u in r.sessions ensures HasToken(r, u) {
        assert HasToken(s, u);
        var t :| t in s.users && s.users[t] == u;
        assert t in r.users && r.users[t] == u;
      }
    }
  }

  // Lots that were in the book before a placement: no new crossing among them.
  lemma OldPairsSettled(s: State, r: State, p: Progress, o: Row, a: nat, b: nat)
    requires BookUncrossed(s) && o.id == s.db.nextLot
    requires p.db.lots == s.db.lots[o.id := Lot(o.user, o.side, o.usd, o.price, true)]
    requires BookShrinks(p.db, r.db) && s.met <= r.met && s.cut <= r.cut
    requires Good(s.db) && b != o.id
    ensures PairSettled(r, a, b)
  {
    assert PairSettled(s, a, b);
    assert LotSound(s.db, b);
  }

  // A placement, finished or cut off after some settlements.
  lemma PlaceKeepsInv(s: State, token: string, side: Side, usd: int, price: int, limit: nat,
                      batches: seq<seq<Row>>, rows: seq<Row>, r: State)
    requires Inv(s) && token in s.users
    requires var u := s.users[token];
      var p, o := Start(s.db, u, side, usd, price), OrderPlaced(s.db, u, side, usd, price);
      var q := Walk(p, o, rows);
      && Rounds(p, o, limit, batches) && rows <= Flatten(batches)
      && r.db == q.db && s.met <= r.met && s.cut <= r.cut
      && (o.id !in r.met && o.id !in r.cut ==> Candidates(q.db, o) == {})
    requires (r.users == s.users && r.sessions == s.sessions) || (r.users == map[] && r.sessions == map[])
    ensures Inv(r) && Total(r.db) == Total(s.db)
  {
    var u := s.users[token];
    var p, o := Start(s.db, u, side, usd, price), OrderPlaced(s.db, u, side, usd, price);
    StartIsSound(s.db, u, side, usd, price);
    RoundsInOrder(p, o, limit, batches);
    ReadyPrefix(p.db, o, Flatten(batches), rows);
    WalkKeeps(p, o, rows);
    var q := Walk(p, o, rows);
    forall a: nat, b: nat ensures PairSettled(r, a, b) {
      if b != o.id {
        OldPairsSettled(s, r, p, o, a, b);
      } else if a in r.db.lots && o.id !in r.met && o.id !in r.cut {
        assert a !in Candidates(q.db, o);
      }
    }
    forall t | t in r.users ensures r.users[t] in r.db.accounts {
      assert s.users[t] in s.db.accounts;
    }
    forall v | v in r.sessions ensures HasToken(r, v) {
      assert HasToken(s, v);
      var t :| t in s.users && s.users[t] == v;
      assert t in r.users && r.users[t] == v;
    }
  }

  lemma ReadyPrefix(db: Db, o: Row, all: seq<Row>, rows: seq<Row>)
    requires Ready(db, o, all) && rows <= all
    ensures Ready(db, o, rows)
  {
    assert forall i :: 0 <= i < |rows| ==> rows[i] == all[i];
  }

  // ---------------------------------------------------------------- every step, every run

  // Every event keeps the invariants and the total amounts of money.
  lemma StepKeepsInv(s: State, e: Event, limit: nat)
    requires Inv(s) && Enabled(s, e, limit)
    ensures Inv(Next(s, e)) && Total(Next(s, e).db) == Total(s.db)
  {
    match e
    case Register(sid, name, digest, draws) =>
      if UserNamed(s.db, name).None? {
        NewAccountKeepsGood(s.db, name, digest);
        var r := Registered(s, name, digest);
        RegisteredKeepsInv(s, name, digest);
        LoginKeepsInv(r, sid, name, digest, draws);
      }
    case Authorize(sid, name, digest, draws) => LoginKeepsInv(s, sid, name, digest, draws);
    case Place(token, side, usd, price, batches) =>
      if token in s.users {
        PlaceKeepsInv(s, token, side, usd, price, limit, batches, Flatten(batches), Next(s, e));
      }
    case Cancel(token, id) => CancelKeepsInv(s, token, id);
    case ReadOnly =>
    case Close(sid) => CloseKeepsInv(s, sid);
    case Crash =>
      forall a: nat, b: nat ensures PairSettled(Next(s, e), a, b) {
        assert PairSettled(s, a, b);
      }
    case CrashInPlace(token, side, usd, price, batches, settled) =>
      PlaceKeepsInv(s, token, side, usd, price, limit, batches, Flatten(batches)[..settled], Next(s, e));
  }

  lemma RegisteredKeepsInv(s: State, name: string, digest: string)
    requires Inv(s) && UserNamed(s.db, name).None?
    ensures Inv(Registered(s, name, digest))
  {
    NewAccountKeepsGood(s.db, name, digest);
    var r := Registered(s, name, digest);
    forall a: nat, b: nat ensures PairSettled(r, a, b) {
      assert PairSettled(s, a, b);
    }
    forall u | u in r.sessions ensures HasToken(r, u) {
      assert HasToken(s, u);
      var t :| t in s.users && s.users[t] == u;
      assert t in r.users && r.users[t] == u;
    }
  }

  // In every state of every run, for any batch limit: no constraint of the schema is broken, a recorded
  // lot is out of the book and recorded once, the registry is sound, the book is uncrossed, and the
  // accounts hold as much money as at the start, crashes between any two settlements included.
  lemma {:induction false} RunKeepsInv(s: State, es: seq<Event>, limit: nat)
    requires Inv(s) && ValidRun(s, es, limit)
    ensures Inv(After(s, es)) && Total(After(s, es).db) == Total(s.db)
  {
    if es != [] {
      var n := |es| - 1;
      RunKeepsInv(s, es[..n], limit);
      StepKeepsInv(After(s, es[..n]), es[n], limit);
    }
  }

  lemma InitialInv()
    ensures Inv(INITIAL) && Total(INITIAL.db) == Money(0, 0)
  {
    assert MoneyBelow(map[], 1) == MoneyBelow(map[], 0) == Money(0, 0);
    assert forall u: nat :: UserIdUsed(EMPTY, u);
    assert forall u: nat, v: nat :: NamesApart(EMPTY, u, v);
    assert forall i: nat :: LotSound(EMPTY, i);
    assert forall k: nat :: DealSound(EMPTY, k);
    assert forall j: nat, k: nat :: DealsApart(EMPTY, j, k);
    assert forall a: nat, b: nat :: PairSettled(INITIAL, a, b);
  }
}
