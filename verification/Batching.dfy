/**
 The rounds of one placement.  The book is read in batches of a limited size, each batch after the
 previous one has been settled.  The batches join into one list in price order, and if nobody has
 two lots in the book, the whole placement is a single pass over a sorted list of all crossing lots.
 */
module Batching {
  import opened Tables
  import opened Matching

  function Flatten(batches: seq<seq<Row>>): seq<Row> {
    if batches == [] then []
    else Flatten(batches[..|batches| - 1]) + batches[|batches| - 1]
  }

  // Each batch is non-empty, was read after the ones before it had been settled, and was read only
  // because the incoming lot was not filled yet.
  ghost predicate Rounds(p: Progress, o: Row, limit: nat, batches: seq<seq<Row>>) {
    batches == [] ||
    (var n := |batches| - 1;
     var q := Walk(p, o, Flatten(batches[..n]));
     && Rounds(p, o, limit, batches[..n])
     && q.acc != o.usd
     && batches[n] != []
     && Snapshot(q.db, o, batches[n], limit))
  }

  // The loop is left when the request is met or the query returns nothing.
  ghost predicate Finished(q: Progress, o: Row) {
    q.acc == o.usd || Candidates(q.db, o) == {}
  }

  lemma OneRound(p: Progress, o: Row, limit: nat, batch: seq<Row>)
    requires p.acc != o.usd && batch != [] && Snapshot(p.db, o, batch, limit)
    ensures Flatten([batch]) == batch && Rounds(p, o, limit, [batch])
  {
    assert [batch][..0] == [];
    assert Flatten([batch]) == [] + batch == batch;
    assert Rounds(p, o, limit, []);
  }

  // ---------------------------------------------------------------- order across rounds

  // A list of distinct lots that were all candidates at the start, in price order.
  ghost predicate InOrder(db: Db, o: Row, rows: seq<Row>) {
    && (forall i :: 0 <= i < |rows| ==> rows[i].id in Candidates(db, o) && rows[i] == RowOf(db, rows[i].id))
    && DistinctIds(rows)
    && PriceDescending(rows)
  }

  ghost predicate NoneAbove(db: Db, cs: set<nat>, rows: seq<Row>)
    requires cs <= db.lots.Keys
  {
    forall c, i :: c in cs && 0 <= i < |rows| ==> db.lots[c].price <= rows[i].price
  }

  lemma InOrderReady(db: Db, o: Row, rows: seq<Row>)
    requires Good(db) && InOrder(db, o, rows)
    ensures Ready(db, o, rows)
  {
    forall i | 0 <= i < |rows| ensures Fresh(db, o, rows[i]) {
      ActiveUnrecorded(db, rows[i].id);
    }
  }

  // After a sweep, what is still a candidate was one before, with the same content, and belongs to
  // an owner that was not swept; and every candidate of such an owner still is one.
  lemma SweptCandidates(a: Db, b: Db, o: Row, took: int, rows: seq<Row>)
    requires AllSwept(a, b, o.user, took, Owners(rows))
    ensures forall c :: c in Candidates(b, o) <==> c in Candidates(a, o) && a.lots[c].user !in Owners(rows)
    ensures forall c :: c in Candidates(b, o) ==> RowOf(b, c) == RowOf(a, c)
  {
  }

  lemma OwnersContain(rows: seq<Row>, i: nat)
    requires i < |rows|
    ensures rows[i].user in Owners(rows)
  {
    OwnersAre(rows, rows[i].user);
  }

  // Two ordered lists join when everything in the second one is a later candidate.
  lemma InOrderJoin(a: Db, b: Db, o: Row, took: int, xs: seq<Row>, ys: seq<Row>)
    requires InOrder(a, o, xs) && AllSwept(a, b, o.user, took, Owners(xs))
    requires NoneAbove(b, Candidates(b, o), xs)
    requires SortedPrefix(b, o, ys)
    ensures InOrder(a, o, xs + ys)
  {
    SweptCandidates(a, b, o, took, xs);
    var all := xs + ys;
    forall i | 0 <= i < |all| ensures all[i].id in Candidates(a, o) && all[i] == RowOf(a, all[i].id) {
      if i >= |xs| {
        assert all[i] == ys[i - |xs|];
      }
    }
    forall i, j | 0 <= i < j < |all| ensures all[i].id != all[j].id && all[i].price >= all[j].price {
      if i < |xs| <= j {
        var y := ys[j - |xs|];
        assert y.id in Candidates(b, o);
        OwnersContain(xs, i);
      } else if |xs| <= i {
        assert all[i] == ys[i - |xs|] && all[j] == ys[j - |xs|];
      }
    }
  }

  // Settled counter-lots come in non-increasing price order across all rounds of a placement, no lot
  // comes twice, and each row still tells the owner, side, price and amount it had at the start.
  lemma {:induction false} RoundsInOrder(p: Progress, o: Row, limit: nat, batches: seq<seq<Row>>)
    requires Good(p.db) && Pending(p, o) && Rounds(p, o, limit, batches)
    ensures var flat := Flatten(batches);
      var q := Walk(p, o, flat);
      && InOrder(p.db, o, flat) && Ready(p.db, o, flat)
      && (q.acc != o.usd ==>
            && AllSwept(p.db, q.db, o.user, q.acc - p.acc, Owners(flat))
            && NoneAbove(q.db, Candidates(q.db, o), flat))
    decreases |batches|
  {
    if batches != [] {
      var n := |batches| - 1;
      RoundsInOrder(p, o, limit, batches[..n]);
      RoundJoins(p, o, Flatten(batches[..n]), batches[n]);
    } else {
      assert Owners(Flatten(batches)) == {};
    }
  }

  // One batch more.
  lemma RoundJoins(p: Progress, o: Row, xs: seq<Row>, ys: seq<Row>)
    requires Good(p.db) && Pending(p, o) && InOrder(p.db, o, xs)
    requires var m := Walk(p, o, xs);
      && m.acc != o.usd
      && AllSwept(p.db, m.db, o.user, m.acc - p.acc, Owners(xs))
      && NoneAbove(m.db, Candidates(m.db, o), xs)
      && SortedPrefix(m.db, o, ys)
    ensures var q := Walk(p, o, xs + ys);
      && InOrder(p.db, o, xs + ys) && Ready(p.db, o, xs + ys)
      && (q.acc != o.usd ==>
            && AllSwept(p.db, q.db, o.user, q.acc - p.acc, Owners(xs + ys))
            && NoneAbove(q.db, Candidates(q.db, o), xs + ys))
  {
    var m := Walk(p, o, xs);
    InOrderJoin(p.db, m.db, o, m.acc - p.acc, xs, ys);
    InOrderReady(p.db, o, xs + ys);
    var q := Walk(p, o, xs + ys);
    if q.acc != o.usd {
      SweepExact(p, o, xs + ys, q);
      SweptCandidates(p.db, m.db, o, m.acc - p.acc, xs);
      SweptCandidates(p.db, q.db, o, q.acc - p.acc, xs + ys);
      StillBelow(p.db, m.db, q.db, o, xs, ys);
    }
  }

  lemma StillBelow(a: Db, b: Db, c: Db, o: Row, xs: seq<Row>, ys: seq<Row>)
    requires forall x :: x in Candidates(b, o) <==> x in Candidates(a, o) && a.lots[x].user !in Owners(xs)
    requires forall x :: x in Candidates(c, o) <==> x in Candidates(a, o) && a.lots[x].user !in Owners(xs + ys)
    requires forall x :: x in Candidates(b, o) ==> RowOf(b, x) == RowOf(a, x)
    requires forall x :: x in Candidates(c, o) ==> RowOf(c, x) == RowOf(a, x)
    requires SortedPrefix(b, o, ys) && NoneAbove(b, Candidates(b, o), xs)
    ensures NoneAbove(c, Candidates(c, o), xs + ys)
  {
    forall x, i | x in Candidates(c, o) && 0 <= i < |xs + ys| ensures c.lots[x].price <= (xs + ys)[i].price {
      OwnersAre(xs + ys, a.lots[x].user);
      OwnersAre(xs, a.lots[x].user);
      assert forall k :: 0 <= k < |xs| ==> (xs + ys)[k] == xs[k];
      assert forall k :: 0 <= k < |ys| ==> (xs + ys)[|xs| + k] == ys[k];
      assert x in Candidates(b, o);
      assert x !in Ids(ys);
    }
  }

  // ---------------------------------------------------------------- one pass

  // Nobody but `user` has two lots in the book.
  ghost predicate SingleLots(db: Db, user: nat) {
    forall i, j ::
      (i in db.lots && j in db.lots && db.lots[i].active && db.lots[j].active
       && db.lots[i].user == db.lots[j].user != user) ==> i == j
  }

  // Then a candidate whose owner was swept is itself one of the rows.
  lemma OwnerMeansRow(db: Db, o: Row, rows: seq<Row>, c: nat)
    requires SingleLots(db, o.user) && InOrder(db, o, rows) && c in Candidates(db, o)
    ensures db.lots[c].user in Owners(rows) <==> c in Ids(rows)
  {
    OwnersAre(rows, db.lots[c].user);
    if i :| 0 <= i < |rows| && rows[i].user == db.lots[c].user {
      assert rows[i].id in Candidates(db, o);
      assert rows[i].id == c;
      assert rows[i] in rows;
    }
    if c in Ids(rows) {
      var r :| r in rows && r.id == c;
      var i :| 0 <= i < |rows| && rows[i] == r;
      assert rows[i].user == db.lots[c].user;
    }
  }

  lemma PrefixJoin(a: Db, b: Db, o: Row, took: int, xs: seq<Row>, ys: seq<Row>)
    requires SingleLots(a, o.user) && SortedPrefix(a, o, xs) && InOrder(a, o, xs + ys)
    requires AllSwept(a, b, o.user, took, Owners(xs)) && SortedPrefix(b, o, ys)
    ensures SortedPrefix(a, o, xs + ys)
  {
    var all := xs + ys;
    SweptCandidates(a, b, o, took, xs);
    assert forall r :: r in all <==> r in xs || r in ys;
    forall c, i | c in Candidates(a, o) && c !in Ids(all) && 0 <= i < |all|
      ensures a.lots[c].price <= all[i].price
    {
      OwnerMeansRow(a, o, xs, c);
      assert c !in Ids(xs) && c !in Ids(ys);
      assert c in Candidates(b, o) && RowOf(b, c) == RowOf(a, c);
      if i >= |xs| {
        assert all[i] == ys[i - |xs|];
      }
    }
  }

  lemma PrefixRound(p: Progress, o: Row, xs: seq<Row>, ys: seq<Row>)
    requires Good(p.db) && Pending(p, o) && SingleLots(p.db, o.user) && SortedPrefix(p.db, o, xs)
    requires var m := Walk(p, o, xs);
      && m.acc != o.usd
      && AllSwept(p.db, m.db, o.user, m.acc - p.acc, Owners(xs))
      && NoneAbove(m.db, Candidates(m.db, o), xs)
      && SortedPrefix(m.db, o, ys)
    ensures SortedPrefix(p.db, o, xs + ys)
  {
    var m := Walk(p, o, xs);
    InOrderJoin(p.db, m.db, o, m.acc - p.acc, xs, ys);
    PrefixJoin(p.db, m.db, o, m.acc - p.acc, xs, ys);
  }

  // With single lots the joined batches are the first entries of a sorted list of all candidates.
  lemma {:induction false} RoundsArePrefix(p: Progress, o: Row, limit: nat, batches: seq<seq<Row>>)
    requires Good(p.db) && Pending(p, o) && SingleLots(p.db, o.user) && Rounds(p, o, limit, batches)
    ensures SortedPrefix(p.db, o, Flatten(batches))
    decreases |batches|
  {
    if batches != [] {
      var n := |batches| - 1;
      var xs := Flatten(batches[..n]);
      RoundsArePrefix(p, o, limit, batches[..n]);
      RoundsInOrder(p, o, limit, batches[..n]);
      PrefixRound(p, o, xs, batches[n]);
    }
  }

  // A non-empty set of lots has one of highest price.
  lemma {:induction false} HighestPrice(db: Db, cs: set<nat>) returns (c: nat)
    requires cs != {} && cs <= db.lots.Keys
    ensures c in cs && forall x :: x in cs ==> db.lots[x].price <= db.lots[c].price
    decreases |cs|
  {
    var first :| first in cs;
    c := first;
    var rest := cs - {first};
    assert forall x :: x in cs ==> x in rest || x == first;
    if rest != {} {
      var d := HighestPrice(db, rest);
      if db.lots[first].price < db.lots[d].price {
        c := d;
      }
    }
  }

  lemma IdsGrow(rows: seq<Row>, row: Row)
    ensures Ids(rows + [row]) == Ids(rows) + {row.id}
  {
    var all := rows + [row];
    assert forall r :: r in all <==> r in rows || r == row;
    assert forall i :: i in Ids(all) <==> i in Ids(rows) || i == row.id;
  }

  lemma IdsHead(rows: seq<Row>)
    requires rows != [] && DistinctIds(rows)
    ensures Ids(rows) == {rows[0].id} + Ids(rows[1..]) && rows[0].id !in Ids(rows[1..])
  {
    var rest := rows[1..];
    assert forall r :: r in rows <==> r == rows[0] || r in rest;
    forall r | r in rest ensures r.id != rows[0].id {
      var i :| 0 <= i < |rest| && rest[i] == r;
      assert rows[i + 1] == r;
    }
  }

  lemma IdIn(rows: seq<Row>, i: nat)
    requires i < |rows|
    ensures rows[i].id in Ids(rows)
  {
    assert rows[i] in rows;
  }

  // The highest of the remaining candidates may come next.
  lemma PrefixGrows(db: Db, o: Row, rows: seq<Row>, c: nat)
    requires SortedPrefix(db, o, rows) && c in Candidates(db, o) - Ids(rows)
    requires forall x :: x in Candidates(db, o) - Ids(rows) ==> db.lots[x].price <= db.lots[c].price
    ensures SortedPrefix(db, o, rows + [RowOf(db, c)])
    ensures Ids(rows + [RowOf(db, c)]) == Ids(rows) + {c}
  {
    var row := RowOf(db, c);
    var all, n := rows + [row], |rows|;
    IdsGrow(rows, row);
    assert forall i :: 0 <= i < n ==> all[i] == rows[i];
    assert all[n] == row;
    forall i, j | 0 <= i < j < |all| ensures all[i].id != all[j].id && all[i].price >= all[j].price {
      if j == n {
        IdIn(rows, i);
      }
    }
    forall x, i | x in Candidates(db, o) && x !in Ids(all) && 0 <= i < |all|
      ensures db.lots[x].price <= all[i].price
    {
      assert x in Candidates(db, o) - Ids(rows);
    }
  }

  // Every such prefix extends to a sorted list of all candidates.
  lemma {:induction false} PrefixCompletes(db: Db, o: Row, rows: seq<Row>) returns (rest: seq<Row>)
    requires SortedPrefix(db, o, rows)
    ensures SortedListing(db, o, rows + rest)
    ensures Candidates(db, o) <= Ids(rows) ==> rest == []
    decreases Candidates(db, o) - Ids(rows)
  {
    var left := Candidates(db, o) - Ids(rows);
    if left == {} {
      rest := [];
      assert rows + rest == rows;
      forall c | c in Candidates(db, o) ensures c in Ids(rows) {
        assert c !in left;
      }
    } else {
      var c := HighestPrice(db, left);
      PrefixGrows(db, o, rows, c);
      var more := PrefixCompletes(db, o, rows + [RowOf(db, c)]);
      rest := [RowOf(db, c)] + more;
      assert rows + rest == rows + [RowOf(db, c)] + more;
    }
  }

  // When the query finds nothing more, every candidate there was is one of the rows.
  lemma AllTaken(a: Db, b: Db, o: Row, took: int, rows: seq<Row>)
    requires SingleLots(a, o.user) && InOrder(a, o, rows)
    requires AllSwept(a, b, o.user, took, Owners(rows)) && Candidates(b, o) == {}
    ensures Candidates(a, o) <= Ids(rows)
  {
    SweptCandidates(a, b, o, took, rows);
    forall c | c in Candidates(a, o) ensures c in Ids(rows) {
      OwnerMeansRow(a, o, rows, c);
      assert c !in Candidates(b, o);
    }
  }

  // The whole batched placement settles what one pass over some sorted list of all crossing lots
  // would settle, whatever the batch limit.
  lemma BatchedIsOnePass(p: Progress, o: Row, limit: nat, batches: seq<seq<Row>>)
    requires Good(p.db) && Pending(p, o) && SingleLots(p.db, o.user)
    requires Rounds(p, o, limit, batches) && Finished(Walk(p, o, Flatten(batches)), o)
    ensures exists all :: SortedListing(p.db, o, all) && Walk(p, o, all) == Walk(p, o, Flatten(batches))
  {
    var flat := Flatten(batches);
    RoundsArePrefix(p, o, limit, batches);
    if Walk(p, o, flat).acc != o.usd {
      RoundsInOrder(p, o, limit, batches);
      AllTaken(p.db, Walk(p, o, flat).db, o, Walk(p, o, flat).acc - p.acc, flat);
    }
    var rest := RestIrrelevant(p, o, flat);
    assert SortedListing(p.db, o, flat + rest) && Walk(p, o, flat + rest) == Walk(p, o, flat);
  }

  // Completing the list does not change what is settled.
  lemma RestIrrelevant(p: Progress, o: Row, flat: seq<Row>) returns (rest: seq<Row>)
    requires SortedPrefix(p.db, o, flat)
    requires Walk(p, o, flat).acc == o.usd || Candidates(p.db, o) <= Ids(flat)
    ensures SortedListing(p.db, o, flat + rest) && Walk(p, o, flat + rest) == Walk(p, o, flat)
  {
    rest := PrefixCompletes(p.db, o, flat);
    WalkConcat(p, o, flat, rest);
  }

  // ---------------------------------------------------------------- termination

  // A round that does not fill the incoming lot takes all lots of its batch out of the candidates and
  // brings none in, for any amounts at all.
  lemma RoundShrinksBook(p: Progress, o: Row, limit: nat, batch: seq<Row>)
    requires Good(p.db) && Pending(p, o) && Snapshot(p.db, o, batch, limit) && batch != []
    requires Walk(p, o, batch).acc != o.usd
    ensures Candidates(Walk(p, o, batch).db, o) <= Candidates(p.db, o) - Ids(batch)
    ensures Candidates(Walk(p, o, batch).db, o) < Candidates(p.db, o)
  {
    var q := Walk(p, o, batch);
    SnapshotReady(p.db, o, batch);
    SweepExact(p, o, batch, q);
    SweptCandidates(p.db, q.db, o, q.acc - p.acc, batch);
    forall c | c in Candidates(q.db, o) ensures c !in Ids(batch) {
      if c in Ids(batch) {
        var r :| r in batch && r.id == c;
        var i :| 0 <= i < |batch| && batch[i] == r;
        OwnersContain(batch, i);
      }
    }
    assert batch[0].id in Candidates(p.db, o) && batch[0] in batch;
    assert batch[0].id in Ids(batch);
  }

  // A placement settles each crossing lot at most once, so there are at most as many trades as
  // crossing lots at the start.
  lemma TradesBounded(p: Progress, o: Row, limit: nat, batches: seq<seq<Row>>)
    requires Good(p.db) && Pending(p, o) && p.trades == [] && Rounds(p, o, limit, batches)
    ensures |Walk(p, o, Flatten(batches)).trades| <= |Flatten(batches)| <= |Candidates(p.db, o)|
  {
    RoundsInOrder(p, o, limit, batches);
    WalkTrades(p, o, Flatten(batches));
    DistinctCount(p.db, o, Flatten(batches), Candidates(p.db, o));
  }

  lemma {:induction false} DistinctCount(db: Db, o: Row, rows: seq<Row>, cs: set<nat>)
    requires DistinctIds(rows) && forall i :: 0 <= i < |rows| ==> rows[i].id in cs
    ensures |rows| <= |cs|
  {
    if rows != [] {
      var n := |rows| - 1;
      DistinctCount(db, o, rows[..n], cs - {rows[n].id});
    }
  }
}
