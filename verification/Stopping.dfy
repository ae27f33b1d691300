/**
 Where a walk over the rows stops, told from the request and the rows alone: rows smaller than the
 request are taken whole, until they add up to the request or a row that is not smaller comes.
 */
module Stopping {
  import opened Matching

  function Sum(rows: seq<Row>): int {
    if rows == [] then 0 else rows[0].usd + Sum(rows[1..])
  }

  // With `acc` already accumulated, exactly the first k rows are taken whole.
  predicate StopsAt(usd: int, acc: int, rows: seq<Row>, k: nat) {
    && k <= |rows|
    && (forall i :: 0 <= i < k ==> rows[i].usd < usd && acc + Sum(rows[..i]) != usd)
    && (acc + Sum(rows[..k]) == usd || k == |rows| || rows[k].usd >= usd)
  }

  // The row behind them is settled for the whole request.
  predicate TakesWhole(usd: int, acc: int, rows: seq<Row>, k: nat)
    requires k <= |rows|
  {
    k < |rows| && acc + Sum(rows[..k]) != usd
  }

  lemma SumHead(rows: seq<Row>, i: nat)
    requires 0 < i <= |rows|
    ensures Sum(rows[..i]) == rows[0].usd + Sum(rows[1..][..i - 1])
  {
    assert rows[..i][1..] == rows[1..][..i - 1];
  }

  lemma StopsNext(usd: int, acc: int, rows: seq<Row>, k: nat)
    requires k > 0 && StopsAt(usd, acc, rows, k)
    ensures acc != usd && rows[0].usd < usd && StopsAt(usd, acc + rows[0].usd, rows[1..], k - 1)
  {
    var rest := rows[1..];
    assert Sum(rows[..0]) == 0;
    forall i | 0 <= i < k - 1 ensures rest[i].usd < usd && acc + rows[0].usd + Sum(rest[..i]) != usd {
      SumHead(rows, i + 1);
    }
    SumHead(rows, k);
  }

  // There is exactly one such place.
  lemma {:induction false} StopExists(usd: int, acc: int, rows: seq<Row>) returns (k: nat)
    ensures StopsAt(usd, acc, rows, k)
    decreases |rows|
  {
    assert rows[..0] == [];
    if rows == [] || acc == usd || rows[0].usd >= usd {
      k := 0;
    } else {
      var j := StopExists(usd, acc + rows[0].usd, rows[1..]);
      k := j + 1;
      SumHead(rows, k);
      forall i | 0 <= i < k ensures rows[i].usd < usd && acc + Sum(rows[..i]) != usd {
        if i > 0 {
          SumHead(rows, i);
          assert rows[1..][i - 1] == rows[i];
        }
      }
    }
  }

  lemma StopUnique(usd: int, acc: int, rows: seq<Row>, j: nat, k: nat)
    requires StopsAt(usd, acc, rows, j) && StopsAt(usd, acc, rows, k)
    ensures j == k
  {
  }

  // So it is for every walk: the rows before the stop are taken whole, one more settles the whole request
  // after their sum has been accumulated, or none does.
  lemma {:induction false} StopTrades(p: Progress, o: Row, rows: seq<Row>, k: nat)
    requires StopsAt(o.usd, p.acc, rows, k)
    ensures var ts := NewTrades(p, o, rows);
      if TakesWhole(o.usd, p.acc, rows, k)
      then |ts| == k + 1 && ts[k].row == rows[k] && ts[k].before == p.acc + Sum(rows[..k])
      else |ts| == k
    decreases k
  {
    assert rows[..0] == [];
    if k > 0 {
      StopsNext(o.usd, p.acc, rows, k);
      SumHead(rows, k);
      var q := SettleRow(p, o, rows[0]);
      StopTrades(q, o, rows[1..], k - 1);
      assert NewTrades(p, o, rows)[1..] == NewTrades(q, o, rows[1..]);
    } else if rows != [] && p.acc != o.usd {
      var q := SettleRow(p, o, rows[0]);
      assert q.acc == o.usd && NewTrades(q, o, rows[1..]) == [];
    }
  }

  ghost predicate Positive(rows: seq<Row>) {
    forall i :: 0 <= i < |rows| ==> rows[i].usd > 0
  }

  lemma {:induction false} SumPositive(rows: seq<Row>)
    requires Positive(rows)
    ensures Sum(rows) >= 0 && (rows != [] ==> Sum(rows) >= rows[0].usd > 0)
  {
    if rows != [] {
      SumPositive(rows[1..]);
    }
  }

  lemma {:induction false} SumConcat(a: seq<Row>, b: seq<Row>)
    ensures Sum(a + b) == Sum(a) + Sum(b)
  {
    if a == [] {
      assert a + b == b;
    } else {
      assert (a + b)[1..] == a[1..] + b;
      SumConcat(a[1..], b);
    }
  }

  // A longer prefix of positive amounts has a greater sum.
  lemma SumGrows(rows: seq<Row>, i: nat, k: nat)
    requires Positive(rows) && i < k <= |rows|
    ensures Sum(rows[..i]) < Sum(rows[..k])
  {
    assert rows[..k] == rows[..i] + rows[i..k];
    SumConcat(rows[..i], rows[i..k]);
    SumPositive(rows[i..k]);
  }
}
