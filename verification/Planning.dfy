/**
 The rounds of a placement told from the request and the tables before it, for any book.  A batch is
 read from the lots whose owners have not been settled with yet, and it is read only when the rows
 before it were all taken whole without meeting the request.
 */
module Planning {
  import opened Tables
  import opened Matching
  import opened Batching
  import opened Stopping

  // The crossing lots whose owners are not among those settled with.
  function Left(db: Db, o: Row, gone: set<nat>): set<nat> {
    set c | c in Candidates(db, o) && db.lots[c].user !in gone
  }

  // All rows are taken whole, and the request is not met.
  predicate RunsPast(usd: int, acc: int, rows: seq<Row>) {
    StopsAt(usd, acc, rows, |rows|) && acc + Sum(rows) != usd
  }

  ghost predicate Schedule(db: Db, o: Row, limit: nat, plan: seq<seq<Row>>) {
    plan == [] ||
    (var n := |plan| - 1;
     var before := Flatten(plan[..n]);
     && Schedule(db, o, limit, plan[..n])
     && RunsPast(o.usd, 0, before)
     && plan[n] != []
     && FirstFrom(db, Left(db, o, Owners(before)), plan[n], limit))
  }

  // A schedule that goes on until the request is met or no lot is left.
  ghost predicate Plan(db: Db, o: Row, limit: nat, plan: seq<seq<Row>>) {
    && Schedule(db, o, limit, plan)
    && (RunsPast(o.usd, 0, Flatten(plan)) ==> Left(db, o, Owners(Flatten(plan))) == {})
  }

  // ---------------------------------------------------------------- plans are what happens

  // What a walk accumulates, from the request and the rows.
  lemma {:induction false} StopAccumulates(p: Progress, o: Row, rows: seq<Row>, k: nat)
    requires StopsAt(o.usd, p.acc, rows, k)
    ensures Walk(p, o, rows).acc
         == if TakesWhole(o.usd, p.acc, rows, k) then o.usd else p.acc + Sum(rows[..k])
    decreases k
  {
    assert rows[..0] == [];
    if k > 0 {
      StopsNext(o.usd, p.acc, rows, k);
      SumHead(rows, k);
      StopAccumulates(SettleRow(p, o, rows[0]), o, rows[1..], k - 1);
    } else if rows != [] && p.acc != o.usd {
      var q := SettleRow(p, o, rows[0]);
      assert q.acc == o.usd && Walk(q, o, rows[1..]) == q;
    }
  }

  lemma UnmetIff(p: Progress, o: Row, rows: seq<Row>)
    ensures Walk(p, o, rows).acc != o.usd <==> RunsPast(o.usd, p.acc, rows)
  {
    var k := StopExists(o.usd, p.acc, rows);
    StopAccumulates(p, o, rows, k);
    assert rows[..|rows|] == rows;
    if RunsPast(o.usd, p.acc, rows) {
      StopUnique(o.usd, p.acc, rows, k, |rows|);
    }
  }

  // After the rows the query finds what is left, unchanged.
  lemma QueryFindsLeft(p: Progress, o: Row, limit: nat, batches: seq<seq<Row>>)
    requires Good(p.db) && Pending(p, o) && Rounds(p, o, limit, batches)
    requires Walk(p, o, Flatten(batches)).acc != o.usd
    ensures var m := Walk(p, o, Flatten(batches)).db;
      && Candidates(m, o) == Left(p.db, o, Owners(Flatten(batches)))
      && forall c :: c in Candidates(m, o) ==> RowOf(m, c) == RowOf(p.db, c)
  {
    var q := Walk(p, o, Flatten(batches));
    RoundsInOrder(p, o, limit, batches);
    SweptCandidates(p.db, q.db, o, q.acc - p.acc, Flatten(batches));
  }

  lemma SameFirst(a: Db, b: Db, cs: set<nat>, rows: seq<Row>, limit: nat)
    requires cs <= a.lots.Keys && cs <= b.lots.Keys && forall c :: c in cs ==> RowOf(a, c) == RowOf(b, c)
    ensures FirstFrom(a, cs, rows, limit) <==> FirstFrom(b, cs, rows, limit)
  {
    assert forall c :: c in cs ==> a.lots[c].price == RowOf(a, c).price == RowOf(b, c).price == b.lots[c].price;
  }

  // The batches a placement reads are the schedules, whatever the book.
  lemma {:induction false} RoundsIffSchedule(p: Progress, o: Row, limit: nat, batches: seq<seq<Row>>)
    requires Good(p.db) && Pending(p, o) && p.acc == 0
    ensures Rounds(p, o, limit, batches) <==> Schedule(p.db, o, limit, batches)
    decreases |batches|
  {
    if batches != [] {
      var n := |batches| - 1;
      var before := Flatten(batches[..n]);
      RoundsIffSchedule(p, o, limit, batches[..n]);
      UnmetIff(p, o, before);
      if Rounds(p, o, limit, batches[..n]) && RunsPast(o.usd, 0, before) {
        QueryFindsLeft(p, o, limit, batches[..n]);
        SameFirst(p.db, Walk(p, o, before).db, Left(p.db, o, Owners(before)), batches[n], limit);
      }
    }
  }

  // And the whole placements are the plans.
  lemma PlacementIsPlan(p: Progress, o: Row, limit: nat, batches: seq<seq<Row>>)
    requires Good(p.db) && Pending(p, o) && p.acc == 0
    ensures Rounds(p, o, limit, batches) && Finished(Walk(p, o, Flatten(batches)), o)
       <==> Plan(p.db, o, limit, batches)
  {
    RoundsIffSchedule(p, o, limit, batches);
    UnmetIff(p, o, Flatten(batches));
    if Rounds(p, o, limit, batches) && RunsPast(o.usd, 0, Flatten(batches)) {
      QueryFindsLeft(p, o, limit, batches);
    }
  }

  // ---------------------------------------------------------------- without ties there is one plan

  ghost predicate PricesApart(db: Db, cs: set<nat>)
    requires cs <= db.lots.Keys
  {
    forall c, d :: c in cs && d in cs && db.lots[c].price == db.lots[d].price ==> c == d
  }

  // The head of a sorted list is the only lot of highest price.
  lemma HeadIsHighest(db: Db, cs: set<nat>, rows: seq<Row>, c: nat)
    requires cs <= db.lots.Keys && SortedFrom(db, cs, rows) && rows != [] && c in cs
    ensures db.lots[c].price <= db.lots[rows[0].id].price
  {
    if c in Ids(rows) {
      var r :| r in rows && r.id == c;
      var i :| 0 <= i < |rows| && rows[i] == r;
    }
  }

  lemma TailIsSorted(db: Db, cs: set<nat>, rows: seq<Row>)
    requires cs <= db.lots.Keys && SortedFrom(db, cs, rows) && rows != []
    ensures SortedFrom(db, cs - {rows[0].id}, rows[1..])
  {
    var rest := rows[1..];
    IdsHead(rows);
    forall i | 0 <= i < |rest| ensures rest[i].id in cs - {rows[0].id} {
      assert rest[i] == rows[i + 1];
    }
  }

  lemma SameHead(db: Db, cs: set<nat>, xs: seq<Row>, ys: seq<Row>)
    requires cs <= db.lots.Keys && PricesApart(db, cs) && xs != [] && ys != []
    requires SortedFrom(db, cs, xs) && SortedFrom(db, cs, ys)
    ensures xs[0] == ys[0]
  {
    HeadIsHighest(db, cs, xs, ys[0].id);
    HeadIsHighest(db, cs, ys, xs[0].id);
  }

  lemma {:induction false} SortedIsUnique(db: Db, cs: set<nat>, xs: seq<Row>, ys: seq<Row>)
    requires cs <= db.lots.Keys && PricesApart(db, cs) && |xs| == |ys|
    requires SortedFrom(db, cs, xs) && SortedFrom(db, cs, ys)
    ensures xs == ys
  {
    if xs != [] {
      TailsSorted(db, cs, xs, ys);
      SortedIsUnique(db, cs - {xs[0].id}, xs[1..], ys[1..]);
      HeadAndTail(xs, ys);
    }
  }

  lemma TailsSorted(db: Db, cs: set<nat>, xs: seq<Row>, ys: seq<Row>)
    requires cs <= db.lots.Keys && PricesApart(db, cs) && xs != [] && ys != []
    requires SortedFrom(db, cs, xs) && SortedFrom(db, cs, ys)
    ensures xs[0] == ys[0] && PricesApart(db, cs - {xs[0].id})
    ensures SortedFrom(db, cs - {xs[0].id}, xs[1..]) && SortedFrom(db, cs - {xs[0].id}, ys[1..])
  {
    SameHead(db, cs, xs, ys);
    TailIsSorted(db, cs, xs);
    TailIsSorted(db, cs, ys);
  }

  lemma HeadAndTail(xs: seq<Row>, ys: seq<Row>)
    requires xs != [] && ys != [] && xs[0] == ys[0] && xs[1..] == ys[1..]
    ensures xs == ys
  {
    assert xs == [xs[0]] + xs[1..] && ys == [ys[0]] + ys[1..];
  }

  lemma {:induction false} CountOf(db: Db, cs: set<nat>, rows: seq<Row>)
    requires cs <= db.lots.Keys && SortedFrom(db, cs, rows)
    ensures |rows| <= |cs| && (cs <= Ids(rows) ==> |rows| == |cs|)
  {
    if rows != [] {
      var left := cs - {rows[0].id};
      TailIsSorted(db, cs, rows);
      CountOf(db, left, rows[1..]);
      IdsHead(rows);
      assert |left| == |cs| - 1;
    }
  }

  lemma FirstIsUnique(db: Db, cs: set<nat>, xs: seq<Row>, ys: seq<Row>, limit: nat)
    requires cs <= db.lots.Keys && PricesApart(db, cs)
    requires FirstFrom(db, cs, xs, limit) && FirstFrom(db, cs, ys, limit)
    ensures xs == ys
  {
    CountOf(db, cs, xs);
    CountOf(db, cs, ys);
    SortedIsUnique(db, cs, xs, ys);
  }

  lemma ListingIsUnique(db: Db, o: Row, xs: seq<Row>, ys: seq<Row>)
    requires SortedListing(db, o, xs) && SortedListing(db, o, ys) && PricesApart(db, Candidates(db, o))
    ensures xs == ys
  {
    CountOf(db, Candidates(db, o), xs);
    CountOf(db, Candidates(db, o), ys);
    SortedIsUnique(db, Candidates(db, o), xs, ys);
  }

  lemma {:induction false} SchedulePrefix(db: Db, o: Row, limit: nat, plan: seq<seq<Row>>, k: nat)
    requires Schedule(db, o, limit, plan) && k <= |plan|
    ensures Schedule(db, o, limit, plan[..k])
    decreases |plan|
  {
    if k == |plan| {
      assert plan[..k] == plan;
    } else {
      var n := |plan| - 1;
      SchedulePrefix(db, o, limit, plan[..n], k);
      assert plan[..n][..k] == plan[..k];
    }
  }

  lemma {:induction false} SchedulesAgree(db: Db, o: Row, limit: nat, a: seq<seq<Row>>, b: seq<seq<Row>>)
    requires Schedule(db, o, limit, a) && Schedule(db, o, limit, b) && |a| == |b|
    requires PricesApart(db, Candidates(db, o))
    ensures a == b
    decreases |a|
  {
    if a != [] {
      var n := |a| - 1;
      SchedulesAgree(db, o, limit, a[..n], b[..n]);
      FirstIsUnique(db, Left(db, o, Owners(Flatten(a[..n]))), a[n], b[n], limit);
      assert a == a[..n] + [a[n]] && b == b[..n] + [b[n]];
    }
  }

  lemma SomeFirst(db: Db, cs: set<nat>, rows: seq<Row>, limit: nat)
    requires cs <= db.lots.Keys && FirstFrom(db, cs, rows, limit) && rows != []
    ensures cs != {}
  {
    assert rows[0].id in cs;
  }

  lemma PlanIsLongest(db: Db, o: Row, limit: nat, a: seq<seq<Row>>, b: seq<seq<Row>>)
    requires Plan(db, o, limit, a) && Schedule(db, o, limit, b) && PricesApart(db, Candidates(db, o))
    ensures |b| <= |a|
  {
    var n := |a|;
    if n < |b| {
      SchedulePrefix(db, o, limit, b, n);
      SchedulePrefix(db, o, limit, b, n + 1);
      SchedulesAgree(db, o, limit, a, b[..n]);
      assert b[..n + 1][..n] == b[..n] && b[..n + 1][n] == b[n];
      SomeFirst(db, Left(db, o, Owners(Flatten(a))), b[n], limit);
    }
  }

  // If no two crossing lots have the same price, everything a placement will do is determined.
  lemma PlanIsUnique(db: Db, o: Row, limit: nat, a: seq<seq<Row>>, b: seq<seq<Row>>)
    requires Plan(db, o, limit, a) && Plan(db, o, limit, b) && PricesApart(db, Candidates(db, o))
    ensures a == b
  {
    PlanIsLongest(db, o, limit, a, b);
    PlanIsLongest(db, o, limit, b, a);
    SchedulesAgree(db, o, limit, a, b);
  }
}
