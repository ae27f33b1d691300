/**
 A reference exchange that works lot by lot: it keeps only the lots in the book and the balances,
 reads one fully sorted list of crossing lots per placement, and a settlement touches the two settled
 lots and the two balances, nothing else.  As long as users place a lot only while holding none, the
 server (batches, stale snapshots, updates by owner) does exactly what the reference does.
 */
module ReferenceBook {
  import opened Tables
  import opened Settlement
  import opened Matching
  import opened Batching
  import opened Exchange

  datatype Entry = Entry(user: nat, side: Side, usd: int, price: int)

  datatype Book = Book(entries: map<nat, Entry>, balances: map<nat, Money>, next: nat)

  function EntryOf(l: Lot): Entry {
    Entry(l.user, l.side, l.usd, l.price)
  }

  // The book and the balances a database stands for.
  function BookOf(db: Db): Book {
    Book(map i | i in db.lots && db.lots[i].active :: EntryOf(db.lots[i]),
         map u | u in db.accounts :: Money(db.accounts[u].usd, db.accounts[u].rub),
         db.nextLot)
  }

  // ---------------------------------------------------------------- the reference operations

  function Paid(balances: map<nat, Money>, buyer: nat, seller: nat, usd: int, cost: int): map<nat, Money> {
    map u | u in balances ::
      Money(balances[u].usd + Gain(u, buyer, seller, usd, cost).usd,
            balances[u].rub + Gain(u, buyer, seller, usd, cost).rub)
  }

  function Reduced(entries: map<nat, Entry>, id: nat, usd: int): map<nat, Entry> {
    if id in entries then entries[id := entries[id].(usd := entries[id].usd - usd)] else entries
  }

  function RefEntries(entries: map<nat, Entry>, o: Row, row: Row): map<nat, Entry> {
    if o.usd > row.usd then Reduced(entries - {row.id}, o.id, row.usd)
    else if o.usd < row.usd then Reduced(entries - {o.id}, row.id, o.usd)
    else entries - {o.id, row.id}
  }

  function RefSettle(b: Book, o: Row, row: Row): Book {
    b.(entries := RefEntries(b.entries, o, row),
       balances := Paid(b.balances, BuyerIn(o, row), SellerIn(o, row), AmountIn(o, row), row.price * AmountIn(o, row)))
  }

  // One pass over a list of crossing lots.
  function RefPass(b: Book, acc: int, o: Row, rows: seq<Row>): Book
    decreases |rows|
  {
    if rows == [] || acc == o.usd then b
    else RefPass(RefSettle(b, o, rows[0]), if o.usd > rows[0].usd then acc + rows[0].usd else o.usd, o, rows[1..])
  }

  function RefCrossing(b: Book, o: Row): set<nat> {
    set i | i in b.entries && Crosses(o.side, o.price, b.entries[i].price)
            && b.entries[i].side != o.side && b.entries[i].user != o.user
  }

  // `rows` starts some listing of the crossing lots by descending price.
  ghost predicate RefPrefix(b: Book, o: Row, rows: seq<Row>) {
    && (forall i :: 0 <= i < |rows| ==>
          && rows[i].id in RefCrossing(b, o)
          && b.entries[rows[i].id] == Entry(rows[i].user, rows[i].side, rows[i].usd, rows[i].price))
    && DistinctIds(rows)
    && PriceDescending(rows)
    && (forall c, i :: c in RefCrossing(b, o) && c !in Ids(rows) && 0 <= i < |rows| ==>
          b.entries[c].price <= rows[i].price)
  }

  datatype RefEvent =
    | RefOpen(user: nat)
    | RefPlace(user: nat, side: Side, usd: int, price: int, rows: seq<Row>, whole: bool)
    | RefCancel(id: nat)
    | RefNothing

  function RefOrder(b: Book, e: RefEvent): Row
    requires e.RefPlace?
  {
    Row(b.next, e.user, e.side, e.usd, e.price)
  }

  function RefPlaced(b: Book, e: RefEvent): Book
    requires e.RefPlace?
  {
    b.(entries := b.entries[b.next := Entry(e.user, e.side, e.usd, e.price)], next := b.next + 1)
  }

  // A whole placement lists every crossing lot; one that a crash cut off lists some first ones.
  ghost predicate RefEnabled(b: Book, e: RefEvent) {
    e.RefPlace? ==>
      && RefPrefix(RefPlaced(b, e), RefOrder(b, e), e.rows)
      && (e.whole ==> RefCrossing(RefPlaced(b, e), RefOrder(b, e)) <= Ids(e.rows))
  }

  function RefNext(b: Book, e: RefEvent): Book {
    match e
    case RefOpen(user) => b.(balances := b.balances[user := Money(0, 0)])
    case RefPlace(_, _, _, _, rows, _) => RefPass(RefPlaced(b, e), 0, RefOrder(b, e), rows)
    case RefCancel(id) => b.(entries := b.entries - {id})
    case RefNothing => b
  }

  function RefAfter(b: Book, es: seq<RefEvent>): Book {
    if es == [] then b else RefNext(RefAfter(b, es[..|es| - 1]), es[|es| - 1])
  }

  ghost predicate RefValid(b: Book, es: seq<RefEvent>) {
    es == [] ||
    (RefValid(b, es[..|es| - 1]) && RefEnabled(RefAfter(b, es[..|es| - 1]), es[|es| - 1]))
  }

  // ---------------------------------------------------------------- discipline

  // Nobody has two lots in the book.
  ghost predicate OneLotEach(db: Db) {
    forall i, j ::
      (i in db.lots && j in db.lots && db.lots[i].active && db.lots[j].active && db.lots[i].user == db.lots[j].user)
      ==> i == j
  }

  ghost predicate HoldsNone(db: Db, user: nat) {
    forall i :: i in db.lots && db.lots[i].active ==> db.lots[i].user != user
  }

  // A user places a lot only while holding none in the book.
  ghost predicate Disciplined(s: State, e: Event) {
    (e.Place? || e.CrashInPlace?) && e.token in s.users ==> HoldsNone(s.db, s.users[e.token])
  }

  ghost predicate DisciplinedRun(s: State, es: seq<Event>) {
    forall k :: 0 <= k < |es| ==> Disciplined(After(s, es[..k]), es[k])
  }

  // The reference event is about the same request.
  ghost predicate SameRequest(s: State, e: Event, r: RefEvent) {
    match e
    case Register(_, name, digest, _) =>
      r == if UserNamed(s.db, name).Some? then RefNothing else RefOpen(s.db.nextUser)
    case Place(token, side, usd, price, _) =>
      if token in s.users
      then r.RefPlace? && r == RefPlace(s.users[token], side, usd, price, r.rows, true)
      else r == RefNothing
    case CrashInPlace(token, side, usd, price, _, _) =>
      token in s.users && r.RefPlace? && r == RefPlace(s.users[token], side, usd, price, r.rows, false)
    case Cancel(token, id) =>
      r == if Cancelled(s, token, id) == s then RefNothing else RefCancel(id)
    case _ => r == RefNothing
  }

  // ---------------------------------------------------------------- one settlement

  // The two lots of a settlement, both in the book.
  ghost predicate BothInBook(db: Db, o: Row, row: Row) {
    && o.id in db.lots && db.lots[o.id].active && db.lots[o.id].user == o.user
    && row.id in db.lots && db.lots[row.id].active && db.lots[row.id].user == row.user
    && row.user != o.user
  }

  // Lot i is not hit by an update meant for one of the two settled lots: it is out of the book, or is
  // one of the two, or its owner is not closed and loses nothing.
  predicate Spared(db: Db, o: Row, row: Row, i: nat) {
    (i in db.lots && db.lots[i].active && i != o.id && i != row.id) ==>
      var u := db.lots[i].user;
      if o.usd > row.usd then u != row.user && (u == o.user ==> row.usd == 0)
      else if o.usd < row.usd then u != o.user && (u == row.user ==> o.usd == 0)
      else u != o.user && u != row.user
  }

  ghost predicate SameEntry(a: map<nat, Lot>, b: map<nat, Entry>, i: nat) {
    && (i in a && a[i].active <==> i in b)
    && (i in b ==> EntryOf(a[i]) == b[i])
  }

  lemma EntryRefines(db: Db, o: Row, row: Row, i: nat)
    requires BothInBook(db, o, row)
    ensures SameEntry(LotsAfter(db.lots, o, row), RefEntries(BookOf(db).entries, o, row), i) <==> Spared(db, o, row, i)
  {
  }

  // The updates by owner do in the book what the lot-level settlement does, if and only if they hit no
  // third lot.
  lemma UpdatesExactIff(db: Db, o: Row, row: Row)
    requires BothInBook(db, o, row)
    ensures BookOf(db.(lots := LotsAfter(db.lots, o, row))).entries == RefEntries(BookOf(db).entries, o, row)
       <==> forall i :: Spared(db, o, row, i)
  {
    var after, b := LotsAfter(db.lots, o, row), RefEntries(BookOf(db).entries, o, row);
    var a := BookOf(db.(lots := after)).entries;
    forall i: nat ensures SameEntry(after, b, i) <==> Spared(db, o, row, i) {
      EntryRefines(db, o, row, i);
    }
    forall i: nat ensures SameEntry(after, b, i) <==> ((i in a <==> i in b) && (i in b ==> a[i] == b[i])) {
    }
    if forall i :: Spared(db, o, row, i) {
      assert forall i :: SameEntry(after, b, i);
      assert a == b;
    }
    if a == b {
      forall i: nat ensures Spared(db, o, row, i) {
        assert SameEntry(after, b, i);
      }
    }
  }

  // Under discipline there is no third lot to hit.
  lemma LotsRefine(db: Db, o: Row, row: Row)
    requires OneLotEach(db) && BothInBook(db, o, row)
    ensures BookOf(db.(lots := LotsAfter(db.lots, o, row))).entries == RefEntries(BookOf(db).entries, o, row)
  {
    UpdatesExactIff(db, o, row);
    assert forall i :: Spared(db, o, row, i);
  }

  lemma SettleRefines(p: Progress, o: Row, row: Row, r: Db)
    requires Good(p.db) && OneLotEach(p.db) && Pending(p, o) && Fresh(p.db, o, row)
    requires p.db.lots[row.id].active && RowSettled(p.db, o, row, r)
    ensures BookOf(r) == RefSettle(BookOf(p.db), o, row)
    ensures OneLotEach(r)
  {
    LotsRefine(p.db, o, row);
    assert BookOf(r).entries == BookOf(p.db.(lots := LotsAfter(p.db.lots, o, row))).entries;
    var x, y := BookOf(r).balances, RefSettle(BookOf(p.db), o, row).balances;
    assert forall u :: u in x <==> u in y;
    forall u | u in x ensures x[u] == y[u] {
      var g := Gain(u, BuyerIn(o, row), SellerIn(o, row), AmountIn(o, row), row.price * AmountIn(o, row));
      assert r.accounts[u].usd == p.db.accounts[u].usd + g.usd;
    }
  }

  // ---------------------------------------------------------------- one pass

  // Rows of different owners, all in the book.
  ghost predicate InBook(db: Db, rows: seq<Row>) {
    forall i :: 0 <= i < |rows| ==>
      && rows[i].id in db.lots && db.lots[rows[i].id].active && db.lots[rows[i].id].user == rows[i].user
  }

  lemma StillInBook(db: Db, o: Row, rows: seq<Row>, r: Db)
    requires OneLotEach(db) && rows != [] && InBook(db, rows) && DistinctIds(rows)
    requires RowSettled(db, o, rows[0], r) && o.usd > rows[0].usd
    ensures InBook(r, rows[1..])
  {
    forall i | 0 <= i < |rows[1..]|
      ensures var x := rows[1..][i]; x.id in r.lots && r.lots[x.id].active && r.lots[x.id].user == x.user
    {
      assert rows[1..][i] == rows[i + 1];
      assert rows[0].id != rows[i + 1].id;
    }
  }

  lemma RefPassStep(b: Book, acc: int, o: Row, rows: seq<Row>, c: Book, next: int)
    requires rows != [] && acc != o.usd && c == RefSettle(b, o, rows[0])
    requires next == if o.usd > rows[0].usd then acc + rows[0].usd else o.usd
    ensures RefPass(b, acc, o, rows) == RefPass(c, next, o, rows[1..])
  {
  }

  lemma PassStep(p: Progress, o: Row, rows: seq<Row>) returns (q: Progress)
    requires Good(p.db) && OneLotEach(p.db) && rows != [] && Ready(p.db, o, rows)
    requires p.acc != o.usd && Pending(p, o) && InBook(p.db, rows)
    ensures Walk(p, o, rows) == Walk(q, o, rows[1..])
    ensures RefPass(BookOf(p.db), p.acc, o, rows) == RefPass(BookOf(q.db), q.acc, o, rows[1..])
    ensures OneLotEach(q.db)
    ensures if o.usd > rows[0].usd
            then Good(q.db) && Pending(q, o) && InBook(q.db, rows[1..]) && Ready(q.db, o, rows[1..])
            else q.acc == o.usd
  {
    q := SettleRow(p, o, rows[0]);
    StepKeeps(p, o, rows);
    SettleRefines(p, o, rows[0], q.db);
    RefPassStep(BookOf(p.db), p.acc, o, rows, BookOf(q.db), q.acc);
    if o.usd > rows[0].usd {
      StillInBook(p.db, o, rows, q.db);
    }
  }

  lemma {:induction false} PassRefines(p: Progress, o: Row, rows: seq<Row>)
    requires Good(p.db) && OneLotEach(p.db) && Ready(p.db, o, rows)
    requires p.acc != o.usd ==> Pending(p, o) && InBook(p.db, rows)
    ensures BookOf(Walk(p, o, rows).db) == RefPass(BookOf(p.db), p.acc, o, rows)
    ensures OneLotEach(Walk(p, o, rows).db)
    decreases |rows|
  {
    if rows != [] && p.acc != o.usd {
      var q := PassStep(p, o, rows);
      if o.usd > rows[0].usd {
        PassRefines(q, o, rows[1..]);
      }
    }
  }

  // ---------------------------------------------------------------- placements

  lemma SingleLotsIfEach(db: Db, user: nat)
    requires OneLotEach(db)
    ensures SingleLots(db, user)
  {
  }

  lemma CrossingAgrees(db: Db, o: Row)
    ensures RefCrossing(BookOf(db), o) == Candidates(db, o)
    ensures forall c :: c in Candidates(db, o) ==>
      c in BookOf(db).entries && BookOf(db).entries[c] == EntryOf(db.lots[c])
  {
    var b := BookOf(db);
    assert forall i :: i in RefCrossing(b, o) <==> i in Candidates(db, o);
  }

  lemma PrefixAgrees(db: Db, o: Row, rows: seq<Row>)
    requires SortedPrefix(db, o, rows)
    ensures RefPrefix(BookOf(db), o, rows) && InBook(db, rows)
  {
    CrossingAgrees(db, o);
  }

  // The first rows of a sorted prefix are one as well.
  lemma PrefixOfPrefix(db: Db, o: Row, all: seq<Row>, k: nat)
    requires SortedPrefix(db, o, all) && k <= |all|
    ensures SortedPrefix(db, o, all[..k])
  {
    var rows := all[..k];
    assert forall i :: 0 <= i < k ==> rows[i] == all[i] && all[i] in rows;
    forall c, i | c in Candidates(db, o) && c !in Ids(rows) && 0 <= i < |rows|
      ensures db.lots[c].price <= rows[i].price
    {
      if c in Ids(all) {
        var r :| r in all && r.id == c;
        var j :| 0 <= j < |all| && all[j] == r;
        assert j >= k;
        assert db.lots[c].price == all[j].price;
      }
    }
  }

  lemma StartRefines(db: Db, user: nat, side: Side, usd: int, price: int, e: RefEvent)
    requires Good(db) && OneLotEach(db) && HoldsNone(db, user)
    requires e.RefPlace? && e == RefPlace(user, side, usd, price, e.rows, e.whole)
    ensures var p := Start(db, user, side, usd, price);
      && BookOf(p.db) == RefPlaced(BookOf(db), e)
      && OneLotEach(p.db)
      && OrderPlaced(db, user, side, usd, price) == RefOrder(BookOf(db), e)
  {
    assert LotSound(db, db.nextLot);
    var a, b := BookOf(Start(db, user, side, usd, price).db).entries, RefPlaced(BookOf(db), e).entries;
    assert forall i :: i in a <==> i in b;
    assert forall i :: i in a ==> a[i] == b[i];
  }

  // Walking a sorted list is a reference placement over it.
  lemma ListingRefines(db: Db, user: nat, side: Side, usd: int, price: int, rows: seq<Row>, whole: bool)
    requires Good(db) && OneLotEach(db) && HoldsNone(db, user) && user in db.accounts
    requires var p, o := Start(db, user, side, usd, price), OrderPlaced(db, user, side, usd, price);
      SortedPrefix(p.db, o, rows) && (whole ==> Candidates(p.db, o) <= Ids(rows))
    ensures var r := RefPlace(user, side, usd, price, rows, whole);
      var q := Walk(Start(db, user, side, usd, price), OrderPlaced(db, user, side, usd, price), rows);
      OneLotEach(q.db) && RefEnabled(BookOf(db), r) && BookOf(q.db) == RefNext(BookOf(db), r)
  {
    var p, o := Start(db, user, side, usd, price), OrderPlaced(db, user, side, usd, price);
    StartIsSound(db, user, side, usd, price);
    StartRefines(db, user, side, usd, price, RefPlace(user, side, usd, price, rows, whole));
    SnapshotReady(p.db, o, rows);
    PrefixAgrees(p.db, o, rows);
    CrossingAgrees(p.db, o);
    PassRefines(p, o, rows);
  }

  // A disciplined placement is one reference placement over a sorted list of all crossing lots.
  lemma PlaceRefines(s: State, token: string, side: Side, usd: int, price: int, batches: seq<seq<Row>>, limit: nat)
    requires Inv(s) && OneLotEach(s.db) && token in s.users && HoldsNone(s.db, s.users[token])
    requires Enabled(s, Place(token, side, usd, price, batches), limit)
    ensures var t := Next(s, Place(token, side, usd, price, batches));
      OneLotEach(t.db) &&
      exists rows :: var r := RefPlace(s.users[token], side, usd, price, rows, true);
        RefEnabled(BookOf(s.db), r) && BookOf(t.db) == RefNext(BookOf(s.db), r)
  {
    var u := s.users[token];
    var p, o := Start(s.db, u, side, usd, price), OrderPlaced(s.db, u, side, usd, price);
    StartIsSound(s.db, u, side, usd, price);
    StartRefines(s.db, u, side, usd, price, RefPlace(u, side, usd, price, [], true));
    SingleLotsIfEach(p.db, u);
    BatchedIsOnePass(p, o, limit, batches);
    var all :| SortedListing(p.db, o, all) && Walk(p, o, all) == Walk(p, o, Flatten(batches));
    ListingRefines(s.db, u, side, usd, price, all, true);
    var r := RefPlace(u, side, usd, price, all, true);
    assert RefEnabled(BookOf(s.db), r);
    assert BookOf(Next(s, Place(token, side, usd, price, batches)).db) == RefNext(BookOf(s.db), r);
  }

  // One that a crash cut off is a reference placement over some first rows of such a list.
  lemma CutPlaceRefines(s: State, token: string, side: Side, usd: int, price: int, batches: seq<seq<Row>>,
                        settled: nat, limit: nat)
    requires Inv(s) && OneLotEach(s.db) && token in s.users && HoldsNone(s.db, s.users[token])
    requires Enabled(s, CrashInPlace(token, side, usd, price, batches, settled), limit)
    ensures var t := Next(s, CrashInPlace(token, side, usd, price, batches, settled));
      OneLotEach(t.db) &&
      exists rows :: var r := RefPlace(s.users[token], side, usd, price, rows, false);
        RefEnabled(BookOf(s.db), r) && BookOf(t.db) == RefNext(BookOf(s.db), r)
  {
    var u := s.users[token];
    var p, o := Start(s.db, u, side, usd, price), OrderPlaced(s.db, u, side, usd, price);
    StartIsSound(s.db, u, side, usd, price);
    StartRefines(s.db, u, side, usd, price, RefPlace(u, side, usd, price, [], false));
    SingleLotsIfEach(p.db, u);
    RoundsArePrefix(p, o, limit, batches);
    PrefixOfPrefix(p.db, o, Flatten(batches), settled);
    var rows := Flatten(batches)[..settled];
    ListingRefines(s.db, u, side, usd, price, rows, false);
    var r := RefPlace(u, side, usd, price, rows, false);
    assert RefEnabled(BookOf(s.db), r)
        && BookOf(Next(s, CrashInPlace(token, side, usd, price, batches, settled)).db) == RefNext(BookOf(s.db), r);
  }

  // ---------------------------------------------------------------- runs

  ghost predicate StepMatched(s: State, e: Event, r: RefEvent) {
    SameRequest(s, e, r) && RefEnabled(BookOf(s.db), r) && BookOf(Next(s, e).db) == RefNext(BookOf(s.db), r)
  }

  lemma LoginKeepsDb(s: State, sid: nat, name: string, digest: string, draws: seq<string>)
    ensures LoggedIn(s, sid, name, digest, draws).db == s.db
  {
  }

  lemma OpenRefines(db: Db, name: string, digest: string)
    requires Good(db)
    ensures BookOf(NewAccount(db, name, digest)) == RefNext(BookOf(db), RefOpen(db.nextUser))
  {
    var a, b := BookOf(NewAccount(db, name, digest)).balances, RefNext(BookOf(db), RefOpen(db.nextUser)).balances;
    assert forall u :: u in a <==> u in b;
    assert forall u :: u in a ==> a[u] == b[u];
  }

  lemma CancelRefines(db: Db, id: nat)
    requires Good(db) && id in db.lots
    ensures BookOf(RemoveLot(db, id)) == RefNext(BookOf(db), RefCancel(id))
  {
    var a, b := BookOf(RemoveLot(db, id)).entries, RefNext(BookOf(db), RefCancel(id)).entries;
    assert forall i :: i in a <==> i in b;
    assert forall i :: i in a ==> a[i] == b[i];
  }

  // Every disciplined step is a step of the reference, and keeps the discipline possible.
  lemma StepRefines(s: State, e: Event, limit: nat)
    requires Inv(s) && OneLotEach(s.db) && Enabled(s, e, limit) && Disciplined(s, e)
    ensures OneLotEach(Next(s, e).db)
    ensures exists r :: StepMatched(s, e, r)
  {
    match e
    case Register(sid, name, digest, draws) =>
      if UserNamed(s.db, name).Some? {
        assert StepMatched(s, e, RefNothing);
      } else {
        OpenRefines(s.db, name, digest);
        LoginKeepsDb(Registered(s, name, digest), sid, name, digest, draws);
        assert StepMatched(s, e, RefOpen(s.db.nextUser));
      }
    case Place(token, side, usd, price, batches) =>
      if token in s.users {
        PlaceRefines(s, token, side, usd, price, batches, limit);
        var rows :| var r := RefPlace(s.users[token], side, usd, price, rows, true);
          RefEnabled(BookOf(s.db), r) && BookOf(Next(s, e).db) == RefNext(BookOf(s.db), r);
        assert StepMatched(s, e, RefPlace(s.users[token], side, usd, price, rows, true));
      } else {
        assert StepMatched(s, e, RefNothing);
      }
    case CrashInPlace(token, side, usd, price, batches, settled) =>
      CutPlaceRefines(s, token, side, usd, price, batches, settled, limit);
      var rows :| var r := RefPlace(s.users[token], side, usd, price, rows, false);
        RefEnabled(BookOf(s.db), r) && BookOf(Next(s, e).db) == RefNext(BookOf(s.db), r);
      assert StepMatched(s, e, RefPlace(s.users[token], side, usd, price, rows, false));
    case Cancel(token, id) =>
      if Cancelled(s, token, id) == s {
        assert StepMatched(s, e, RefNothing);
      } else {
        CancelRefines(s.db, id);
        assert StepMatched(s, e, RefCancel(id));
      }
    case Authorize(sid, name, digest, draws) =>
      LoginKeepsDb(s, sid, name, digest, draws);
      assert StepMatched(s, e, RefNothing);
    case _ =>
      assert StepMatched(s, e, RefNothing);
  }

  ghost predicate SameAt(s: State, es: seq<Event>, rs: seq<RefEvent>, k: nat) {
    k < |es| && k < |rs| ==> SameRequest(After(s, es[..k]), es[k], rs[k])
  }

  // The reference run answers the requests of the run one by one.
  ghost predicate RunMatched(s: State, es: seq<Event>, rs: seq<RefEvent>) {
    && |rs| == |es|
    && RefValid(BookOf(s.db), rs)
    && BookOf(After(s, es).db) == RefAfter(BookOf(s.db), rs)
    && forall k :: SameAt(s, es, rs, k)
  }

  lemma RefRunExtends(b: Book, rs: seq<RefEvent>, r: RefEvent)
    requires RefValid(b, rs) && RefEnabled(RefAfter(b, rs), r)
    ensures RefValid(b, rs + [r]) && RefAfter(b, rs + [r]) == RefNext(RefAfter(b, rs), r)
  {
    assert (rs + [r])[..|rs|] == rs;
  }

  lemma SameExtends(s: State, es: seq<Event>, rs: seq<RefEvent>, r: RefEvent, k: nat)
    requires es != [] && |rs| == |es| - 1 && SameAt(s, es[..|es| - 1], rs, k)
    requires SameRequest(After(s, es[..|es| - 1]), es[|es| - 1], r)
    ensures SameAt(s, es, rs + [r], k)
  {
    var n := |es| - 1;
    if k < n {
      assert es[..n][..k] == es[..k];
    }
  }

  lemma MatchExtends(s: State, es: seq<Event>, rs: seq<RefEvent>, r: RefEvent)
    requires es != [] && RunMatched(s, es[..|es| - 1], rs)
    requires StepMatched(After(s, es[..|es| - 1]), es[|es| - 1], r)
    ensures RunMatched(s, es, rs + [r])
  {
    RefRunExtends(BookOf(s.db), rs, r);
    forall k: nat ensures SameAt(s, es, rs + [r], k) {
      assert SameAt(s, es[..|es| - 1], rs, k);
      SameExtends(s, es, rs, r, k);
    }
  }

  lemma OneMoreMatched(s: State, es: seq<Event>, init: seq<Event>, t: State, e: Event)
    requires es != [] && init == es[..|es| - 1] && e == es[|es| - 1] && t == After(s, init)
    requires exists rs :: RunMatched(s, init, rs)
    requires exists r :: StepMatched(t, e, r)
    ensures exists rs :: RunMatched(s, es, rs)
  {
    var rs :| RunMatched(s, init, rs);
    var r :| StepMatched(t, e, r);
    MatchExtends(s, es, rs, r);
  }

  lemma DisciplinedInit(s: State, es: seq<Event>)
    requires es != [] && DisciplinedRun(s, es)
    ensures DisciplinedRun(s, es[..|es| - 1]) && Disciplined(After(s, es[..|es| - 1]), es[|es| - 1])
  {
    var n := |es| - 1;
    assert forall k :: 0 <= k < n ==> es[..n][k] == es[k] && es[..n][..k] == es[..k];
  }

  // After any disciplined run, crashes included, the lots in the book with their amounts and all
  // balances are those of a reference run over the same requests.
  lemma {:induction false} RunRefines(s: State, es: seq<Event>, limit: nat)
    requires Inv(s) && OneLotEach(s.db) && ValidRun(s, es, limit) && DisciplinedRun(s, es)
    ensures OneLotEach(After(s, es).db)
    ensures exists rs :: RunMatched(s, es, rs)
  {
    if es == [] {
      assert RunMatched(s, es, []);
    } else {
      var n := |es| - 1;
      var init := es[..n];
      DisciplinedInit(s, es);
      RunRefines(s, init, limit);
      RunKeepsInv(s, init, limit);
      StepRefines(After(s, init), es[n], limit);
      OneMoreMatched(s, es, init, After(s, init), es[n]);
    }
  }
}
