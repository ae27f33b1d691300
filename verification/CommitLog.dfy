/**
 What a placement commits, one state per settlement, and why a crash between any two of them is one
 of the crashes the runs of the exchange allow.
 */
module CommitLog {
  import opened Tables
  import opened Matching
  import opened Batching
  import opened Exchange

  // The states a walk commits, one per settlement.
  function Commits(p: Progress, o: Row, rows: seq<Row>): seq<Db>
    decreases |rows|
  {
    if rows == [] || p.acc == o.usd then []
    else [Settle(p.db, o, rows[0])] + Commits(SettleRow(p, o, rows[0]), o, rows[1..])
  }

  lemma {:induction false} CommitsConcat(p: Progress, o: Row, a: seq<Row>, b: seq<Row>)
    ensures Commits(p, o, a + b) == Commits(p, o, a) + Commits(Walk(p, o, a), o, b)
    decreases |a|
  {
    if a == [] {
      assert a + b == b;
    } else if p.acc != o.usd {
      assert (a + b)[1..] == a[1..] + b;
      CommitsConcat(SettleRow(p, o, a[0]), o, a[1..], b);
    }
  }

  lemma CommitsSnoc(p: Progress, o: Row, rows: seq<Row>, i: nat)
    requires i < |rows| && Walk(p, o, rows[..i]).acc != o.usd
    ensures Commits(p, o, rows[..i + 1]) == Commits(p, o, rows[..i]) + [Settle(Walk(p, o, rows[..i]).db, o, rows[i])]
  {
    assert rows[..i + 1] == rows[..i] + [rows[i]];
    CommitsConcat(p, o, rows[..i], [rows[i]]);
    var q := Walk(p, o, rows[..i]);
    assert [rows[i]][1..] == [];
    assert Commits(q, o, [rows[i]]) == [Settle(q.db, o, rows[i])];
  }

  // The k-th commit is the state in which a crash after k settlements leaves the tables.
  lemma {:induction false} CommitIsPrefixWalk(p: Progress, o: Row, rows: seq<Row>, k: nat)
    requires k < |Commits(p, o, rows)|
    ensures k < |rows| && Commits(p, o, rows)[k] == Walk(p, o, rows[..k + 1]).db
    decreases |rows|
  {
    var q := SettleRow(p, o, rows[0]);
    if k == 0 {
      assert rows[..1][1..] == [];
      assert Walk(q, o, []) == q;
    } else {
      CommitIsPrefixWalk(q, o, rows[1..], k - 1);
      assert rows[..k + 1][1..] == rows[1..][..k];
    }
  }

  lemma CommitsSound(p: Progress, o: Row, rows: seq<Row>, k: nat)
    requires Good(p.db) && Pending(p, o) && Ready(p.db, o, rows) && k < |Commits(p, o, rows)|
    ensures Good(Commits(p, o, rows)[k]) && Total(Commits(p, o, rows)[k]) == Total(p.db)
  {
    CommitIsPrefixWalk(p, o, rows, k);
    ReadyPrefix(p.db, o, rows, rows[..k + 1]);
    WalkKeeps(p, o, rows[..k + 1]);
  }

  // Everything that was ever committed was sound and held the money of the first state.
  ghost predicate SoundLog(log: seq<Db>) {
    forall k :: 0 <= k < |log| ==> Good(log[k]) && Total(log[k]) == Total(log[0])
  }

  // The same placement, cut off by a crash after some of its settlements.
  ghost predicate CutOf(c: Event, e: Event) {
    c.CrashInPlace? && e.Place? && c == CrashInPlace(e.token, e.side, e.usd, e.price, e.batches, c.settled)
  }

  // Whatever is committed while an event is handled is the state after the event, or after the crash
  // that cuts this very event off, as the runs of the exchange allow it at this point.
  ghost predicate CrashState(s: State, e: Event, limit: nat, d: Db) {
    exists c :: (c == e || CutOf(c, e)) && Enabled(s, c, limit) && Next(s, c).db == d
  }

  ghost predicate CrashStates(s: State, e: Event, limit: nat, commits: seq<Db>) {
    forall k :: 0 <= k < |commits| ==> CrashState(s, e, limit, commits[k])
  }

  lemma CutIsCrashState(s: State, e: Event, limit: nat, settled: nat, d: Db)
    requires e.Place? && e.token in s.users && settled <= |Flatten(e.batches)|
    requires var u := s.users[e.token];
      var p, o := Start(s.db, u, e.side, e.usd, e.price), OrderPlaced(s.db, u, e.side, e.usd, e.price);
      Rounds(p, o, limit, e.batches) && d == Walk(p, o, Flatten(e.batches)[..settled]).db
    ensures CrashState(s, e, limit, d)
  {
    var c := CrashInPlace(e.token, e.side, e.usd, e.price, e.batches, settled);
    assert CutOf(c, e) && Enabled(s, c, limit) && Next(s, c).db == d;
  }

  lemma SettlementCommit(p: Progress, o: Row, limit: nat, batches: seq<seq<Row>>, k: nat, d: Db)
    requires Good(p.db) && Pending(p, o) && Rounds(p, o, limit, batches)
    requires k < |Commits(p, o, Flatten(batches))| && d == Commits(p, o, Flatten(batches))[k]
    ensures Good(d) && Total(d) == Total(p.db)
    ensures k < |Flatten(batches)| && d == Walk(p, o, Flatten(batches)[..k + 1]).db
  {
    RoundsInOrder(p, o, limit, batches);
    CommitsSound(p, o, Flatten(batches), k);
    CommitIsPrefixWalk(p, o, Flatten(batches), k);
  }

  // The matching of event e starts at p with the incoming lot o.
  ghost predicate Matches(s: State, e: Event, limit: nat, p: Progress, o: Row) {
    && e.Place? && e.token in s.users && Good(s.db) && s.users[e.token] in s.db.accounts
    && p == Start(s.db, s.users[e.token], e.side, e.usd, e.price)
    && o == OrderPlaced(s.db, s.users[e.token], e.side, e.usd, e.price)
    && Rounds(p, o, limit, e.batches)
  }

  ghost predicate SoundCut(s: State, e: Event, limit: nat, d: Db) {
    Good(d) && Total(d) == Total(s.db) && CrashState(s, e, limit, d)
  }

  // The inserted lot.
  lemma FirstCommit(s: State, e: Event, limit: nat, p: Progress, o: Row)
    requires Matches(s, e, limit, p, o)
    ensures SoundCut(s, e, limit, p.db)
  {
    StartIsSound(s.db, s.users[e.token], e.side, e.usd, e.price);
    assert Flatten(e.batches)[..0] == [];
    CutIsCrashState(s, e, limit, 0, p.db);
  }

  // One settlement after it.
  lemma LaterCommit(s: State, e: Event, limit: nat, p: Progress, o: Row, k: nat, d: Db)
    requires Matches(s, e, limit, p, o)
    requires k < |Commits(p, o, Flatten(e.batches))| && d == Commits(p, o, Flatten(e.batches))[k]
    ensures SoundCut(s, e, limit, d)
  {
    StartIsSound(s.db, s.users[e.token], e.side, e.usd, e.price);
    SettlementCommit(p, o, limit, e.batches, k, d);
    CutIsCrashState(s, e, limit, k + 1, d);
  }

  // All of them.
  lemma PlaceCommits(s: State, e: Event, limit: nat, before: seq<Db>, added: seq<Db>)
    requires Inv(s) && e.Place? && e.token in s.users && Enabled(s, e, limit)
    requires before != [] && before[|before| - 1] == s.db && SoundLog(before)
    requires var u := s.users[e.token];
      var p, o := Start(s.db, u, e.side, e.usd, e.price), OrderPlaced(s.db, u, e.side, e.usd, e.price);
      added == [p.db] + Commits(p, o, Flatten(e.batches))
    ensures SoundLog(before + added) && CrashStates(s, e, limit, added)
  {
    var u := s.users[e.token];
    var p, o := Start(s.db, u, e.side, e.usd, e.price), OrderPlaced(s.db, u, e.side, e.usd, e.price);
    forall k | 0 <= k < |added| ensures SoundCut(s, e, limit, added[k]) {
      if k == 0 {
        FirstCommit(s, e, limit, p, o);
      } else {
        LaterCommit(s, e, limit, p, o, k - 1, added[k]);
      }
    }
    assert forall k :: 0 <= k < |added| ==> SoundCut(s, e, limit, added[k]);
  }

  // A request that commits once, or not at all, commits its result.
  lemma FewCommits(s: State, e: Event, limit: nat, before: seq<Db>, after: seq<Db>)
    requires Enabled(s, e, limit) && (after == before || after == before + [Next(s, e).db])
    ensures CrashStates(s, e, limit, after[|before|..])
  {
    forall k | 0 <= k < |after[|before|..]| ensures CrashState(s, e, limit, after[|before|..][k]) {
      assert after[|before|..][k] == Next(s, e).db;
    }
  }
}
