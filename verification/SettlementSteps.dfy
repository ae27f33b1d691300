/**
 The settlements as the server runs them: statement by statement against the store,
 with one commit at the end.
 */
module SettlementSteps {
  import opened Wrappers
  import opened Tables
  import opened DatabaseManager
  import opened Settlement

  // ---------------------------------------------------------------- parties of a one-sided settlement

  // The owner of the `sell` lot sells, whichever of the two lots is the completed one.
  function SellerOf(db: Db, done: nat, rest: nat): nat
    requires done in db.lots && rest in db.lots
  {
    if db.lots[done].side == Sell then db.lots[done].user else db.lots[rest].user
  }

  function BuyerOf(db: Db, done: nat, rest: nat): nat
    requires done in db.lots && rest in db.lots
  {
    if db.lots[done].side == Sell then db.lots[rest].user else db.lots[done].user
  }

  // The rows a one-sided settlement reads first.
  predicate FoundOne(db: Db, done: nat, rest: nat) {
    && done in db.lots && rest in db.lots
    && SellerOf(db, done, rest) in db.accounts && BuyerOf(db, done, rest) in db.accounts
  }

  // Exactly when no statement of the one-sided settlement fails.
  ghost predicate CanCloseOne(db: Db, done: nat, rest: nat) {
    FoundOne(db, done, rest) && !Recorded(db, done)
  }

  // The rows a two-sided settlement reads first.
  predicate FoundBoth(db: Db, sellLot: nat, buyLot: nat, seller: nat, buyer: nat) {
    sellLot in db.lots && buyLot in db.lots && seller in db.accounts && buyer in db.accounts
  }

  // Exactly when no statement of the two-sided settlement fails.
  ghost predicate CanCloseBoth(db: Db, sellLot: nat, buyLot: nat, seller: nat, buyer: nat) {
    && FoundBoth(db, sellLot, buyLot, seller, buyer)
    && sellLot != buyLot && !Recorded(db, sellLot) && !Recorded(db, buyLot)
  }

  // ---------------------------------------------------------------- the statements

  function MoneyMoves(buyer: nat, seller: nat, usd: int, price: int): seq<Statement> {
    [AddUsd(buyer, usd), AddRub(buyer, -(price * usd)), AddUsd(seller, -usd), AddRub(seller, usd * price)]
  }

  function CloseOneScript(done: nat, doneOwner: nat, restOwner: nat,
                          buyer: nat, seller: nat, usd: int, price: int): seq<Statement>
  {
    [TakeFromLots(restOwner, usd), InsertDeal(Deal(buyer, seller, done)), Deactivate(doneOwner)]
    + MoneyMoves(buyer, seller, usd, price)
  }

  function CloseBothScript(sellLot: nat, buyLot: nat, sellOwner: nat, buyOwner: nat,
                           seller: nat, buyer: nat, usd: int, price: int): seq<Statement>
  {
    [InsertDeal(Deal(buyer, seller, buyLot)), Deactivate(buyOwner),
     InsertDeal(Deal(buyer, seller, sellLot)), Deactivate(sellOwner)]
    + MoneyMoves(buyer, seller, usd, price)
  }

  // ---------------------------------------------------------------- the methods

  // The four updates of `data`, in the order both settlements make them.
  method MoveMoney(db: DataBaseManager, buyer: nat, seller: nat, usd: int, price: int)
    requires db.worker.Some? && !db.aborted
    modifies db`worker, db`aborted, db`issued
    ensures db.worker == Some(Transfer(old(db.worker.value), buyer, seller, usd, price * usd)) && !db.aborted
    ensures db.issued == old(db.issued) + MoneyMoves(buyer, seller, usd, price)
  {
    var _ := db.MakeTransaction(AddUsd(buyer, usd));
    var _ := db.MakeTransaction(AddRub(buyer, -(price * usd)));
    var _ := db.MakeTransaction(AddUsd(seller, -usd));
    var _ := db.MakeTransaction(AddRub(seller, usd * price));
  }

  // Records a deal and closes the lots of the recorded lot's owner.
  method RecordDeal(db: DataBaseManager, d: Deal, owner: nat) returns (r: Result<Db, SqlError>)
    requires db.worker.Some? && !db.aborted
    requires var t := db.worker.value; d.lot in t.lots && d.buyer in t.accounts && d.seller in t.accounts
    modifies db`worker, db`aborted, db`issued
    ensures r.Success? <==> !Recorded(old(db.worker.value), d.lot)
    ensures r.Success? ==>
      && !db.aborted && db.worker == Some(Deactivated(NewDeal(old(db.worker.value), d), owner))
      && db.issued == old(db.issued) + [InsertDeal(d), Deactivate(owner)]
    ensures r.Failure? ==> db.aborted && db.worker.Some? && r.error == UniqueViolation
  {
    ghost var t := db.worker.value;
    r := db.MakeTransaction(InsertDeal(d));
    if r.Failure? {
      assert Recorded(t, d.lot);
      return;
    }
    assert !Recorded(t, d.lot);
    r := db.MakeTransaction(Deactivate(owner));
  }

  method CloseRequest(db: DataBaseManager, done: nat, rest: nat, usd: int, price: int)
    returns (r: Result<TransactionInfo, SqlError>)
    requires db.Valid()
    modifies db
    ensures db.Valid()
    ensures r.Success? <==> !old(db.aborted) && CanCloseOne(old(db.Current()), done, rest)
    ensures r.Success? ==>
      var a := old(db.Current());
      var buyer, seller := BuyerOf(a, done, rest), SellerOf(a, done, rest);
      var doneOwner, restOwner := a.lots[done].user, a.lots[rest].user;
      && db.worker.None? && db.log == old(db.log) + [db.committed]
      && db.committed == CloseOne(a, done, doneOwner, restOwner, buyer, seller, usd, price)
      && db.issued == old(db.issued) + CloseOneScript(done, doneOwner, restOwner, buyer, seller, usd, price)
      && r.value == TransactionInfo(done, usd, price, a.accounts[seller].name, a.accounts[buyer].name)
    ensures r.Failure? ==>
      && db.committed == old(db.committed) && db.log == old(db.log)
      && r.error == (if old(db.aborted) then TransactionAborted
                     else if FoundOne(old(db.Current()), done, rest) then UniqueViolation
                     else UnexpectedRows)
      && (db.aborted <==> r.error != UnexpectedRows)
  {
    var read := db.Select();
    if read.Failure? {
      return Failure(read.error);
    }
    var t := read.value;
    if done !in t.lots || rest !in t.lots {
      return Failure(UnexpectedRows);
    }
    var row1, row2 := t.lots[done], t.lots[rest];
    var isSellerCompleted := row1.side == Sell;
    var seller := if isSellerCompleted then row1.user else row2.user;
    var buyer := if !isSellerCompleted then row1.user else row2.user;
    if seller !in t.accounts || buyer !in t.accounts {
      return Failure(UnexpectedRows);
    }
    var sellerName, buyerName := t.accounts[seller].name, t.accounts[buyer].name;

    var _ := db.MakeTransaction(TakeFromLots(row2.user, usd));
    var recorded := RecordDeal(db, Deal(buyer, seller, done), row1.user);
    if recorded.Failure? {
      return Failure(recorded.error);
    }
    ghost var head := [TakeFromLots(row2.user, usd), InsertDeal(Deal(buyer, seller, done)), Deactivate(row1.user)];
    assert db.issued == old(db.issued) + head;
    MoveMoney(db, buyer, seller, usd, price);
    Reassociate(old(db.issued), head, MoneyMoves(buyer, seller, usd, price));
    db.CommitTransactions();
    return Success(TransactionInfo(done, usd, price, sellerName, buyerName));
  }

  // One more deal in the history records one more lot.
  lemma RecordedAfter(a: Db, b: Db, d: Deal, lot: nat)
    requires b.deals == a.deals + [d]
    ensures Recorded(b, lot) <==> Recorded(a, lot) || lot == d.lot
  {
    assert forall k :: 0 <= k < |a.deals| ==> b.deals[k] == a.deals[k];
    assert b.deals[|a.deals|] == d;
  }

  // The parties are the caller's; whose lots leave the book is read from the two lots.
  method CloseTwoWayRequests(db: DataBaseManager, sellLot: nat, buyLot: nat, seller: nat, buyer: nat,
                             usd: int, price: int)
    returns (r: Result<TransactionInfo, SqlError>)
    requires db.Valid()
    modifies db
    ensures db.Valid()
    ensures r.Success? <==> !old(db.aborted) && CanCloseBoth(old(db.Current()), sellLot, buyLot, seller, buyer)
    ensures r.Success? ==>
      var a := old(db.Current());
      var sellOwner, buyOwner := a.lots[sellLot].user, a.lots[buyLot].user;
      && db.worker.None? && db.log == old(db.log) + [db.committed]
      && db.committed == CloseBoth(a, sellLot, buyLot, sellOwner, buyOwner, seller, buyer, usd, price)
      && db.issued
         == old(db.issued) + CloseBothScript(sellLot, buyLot, sellOwner, buyOwner, seller, buyer, usd, price)
      && r.value
         == TransactionInfo(buyLot, a.lots[buyLot].usd, price, a.accounts[seller].name, a.accounts[buyer].name)
    ensures r.Failure? ==>
      && db.committed == old(db.committed) && db.log == old(db.log)
      && r.error == (if old(db.aborted) then TransactionAborted
                     else if FoundBoth(old(db.Current()), sellLot, buyLot, seller, buyer) then UniqueViolation
                     else UnexpectedRows)
      && (db.aborted <==> r.error != UnexpectedRows)
  {
    var read := db.Select();
    if read.Failure? {
      return Failure(read.error);
    }
    var t := read.value;
    if seller !in t.accounts || buyer !in t.accounts || sellLot !in t.lots || buyLot !in t.lots {
      return Failure(UnexpectedRows);
    }
    var sellerName, buyerName := t.accounts[seller].name, t.accounts[buyer].name;
    var row1, row2 := t.lots[sellLot], t.lots[buyLot];

    var recorded := RecordDeal(db, Deal(buyer, seller, buyLot), row2.user);
    if recorded.Failure? {
      return Failure(recorded.error);
    }
    RecordedAfter(t, db.Current(), Deal(buyer, seller, buyLot), sellLot);
    recorded := RecordDeal(db, Deal(buyer, seller, sellLot), row1.user);
    if recorded.Failure? {
      return Failure(recorded.error);
    }
    MoveMoney(db, buyer, seller, usd, price);
    db.CommitTransactions();
    return Success(TransactionInfo(buyLot, row2.usd, price, sellerName, buyerName));
  }

  // ---------------------------------------------------------------- between two statements

  // The working state after the first k statements of a script.
  function Stage(db: Db, script: seq<Statement>, k: nat): Db
    requires k <= |script|
  {
    if k == 0 then db
    else
      var before := Stage(db, script, k - 1);
      match Execute(before, script[k - 1])
      case Success(after) => after
      case Failure(_) => before
  }

  // What the working tables hold too much after the first j of the four money moves.
  function Imbalance(j: int, usd: int, price: int): Money {
    Money(if j == 1 || j == 2 then usd else 0, if j == 2 || j == 3 then -(price * usd) else 0)
  }

  ghost predicate OffBy(a: Db, b: Db, m: Money) {
    Total(b) == Money(Total(a).usd + m.usd, Total(a).rub + m.rub)
  }

  ghost predicate BothThere(db: Db, buyer: nat, seller: nat) {
    buyer in db.accounts && buyer < db.nextUser && seller in db.accounts && seller < db.nextUser
  }

  // Four money moves after stage n of a script lead to the transfer, and the sums are off by
  // exactly the imbalance on the way.
  lemma MoneyMoveStages(db: Db, script: seq<Statement>, n: nat, buyer: nat, seller: nat, usd: int, price: int)
    requires |script| == n + 4 && script[n..] == MoneyMoves(buyer, seller, usd, price)
    requires BothThere(Stage(db, script, n), buyer, seller)
    ensures Stage(db, script, n + 4) == Transfer(Stage(db, script, n), buyer, seller, usd, price * usd)
    ensures forall j :: 0 <= j <= 4 ==> OffBy(Stage(db, script, n), Stage(db, script, n + j), Imbalance(j, usd, price))
  {
    var s0 := Stage(db, script, n);
    assert script[n] == script[n..][0] && script[n + 1] == script[n..][1]
        && script[n + 2] == script[n..][2] && script[n + 3] == script[n..][3];
    var s1 := UsdAdded(s0, buyer, usd);
    assert Stage(db, script, n + 1) == s1;
    UsdAddedTotal(s0, buyer, usd);
    var s2 := RubAdded(s1, buyer, -(price * usd));
    assert Stage(db, script, n + 2) == s2;
    RubAddedTotal(s1, buyer, -(price * usd));
    var s3 := UsdAdded(s2, seller, -usd);
    assert Stage(db, script, n + 3) == s3;
    UsdAddedTotal(s2, seller, -usd);
    assert usd * price == price * usd;
    assert Stage(db, script, n + 4) == RubAdded(s3, seller, price * usd);
    RubAddedTotal(s3, seller, price * usd);
    forall j | 0 <= j <= 4 ensures OffBy(s0, Stage(db, script, n + j), Imbalance(j, usd, price)) {
      assert j == 0 || j == 1 || j == 2 || j == 3 || j == 4;
    }
  }

  // Scripts that agree on their first k statements reach the same stage.
  lemma {:induction false} StagePrefix(db: Db, head: seq<Statement>, tail: seq<Statement>, k: nat)
    requires k <= |head|
    ensures Stage(db, head + tail, k) == Stage(db, head, k)
  {
    if k > 0 {
      StagePrefix(db, head, tail, k - 1);
    }
  }

  // A script that first leaves the accounts alone and then moves the money.
  lemma ScriptStages(db: Db, head: seq<Statement>, buyer: nat, seller: nat, usd: int, price: int)
    requires BothThere(db, buyer, seller)
    requires forall k :: 0 <= k <= |head| ==>
      Stage(db, head, k).accounts == db.accounts && Stage(db, head, k).nextUser == db.nextUser
    ensures var script := head + MoneyMoves(buyer, seller, usd, price);
      && Stage(db, script, |script|) == Transfer(Stage(db, head, |head|), buyer, seller, usd, price * usd)
      && forall k :: 0 <= k <= |script| ==> OffBy(db, Stage(db, script, k), Imbalance(k - |head|, usd, price))
  {
    var moves := MoneyMoves(buyer, seller, usd, price);
    var script := head + moves;
    var n := |head|;
    StagePrefix(db, head, moves, n);
    assert script[n..] == moves;
    MoneyMoveStages(db, script, n, buyer, seller, usd, price);
    forall k | 0 <= k <= |script| ensures OffBy(db, Stage(db, script, k), Imbalance(k - n, usd, price)) {
      if k < n {
        StagePrefix(db, head, moves, k);
      } else {
        assert OffBy(Stage(db, script, n), Stage(db, script, n + (k - n)), Imbalance(k - n, usd, price));
      }
    }
  }

  lemma CloseOneHead(db: Db, done: nat, doneOwner: nat, restOwner: nat, buyer: nat, seller: nat, usd: int)
    requires done in db.lots && !Recorded(db, done) && buyer in db.accounts && seller in db.accounts
    ensures var head := [TakeFromLots(restOwner, usd), InsertDeal(Deal(buyer, seller, done)), Deactivate(doneOwner)];
      && Stage(db, head, 3)
         == Deactivated(NewDeal(TakenFromLots(db, restOwner, usd), Deal(buyer, seller, done)), doneOwner)
      && forall k :: 0 <= k <= 3 ==>
           Stage(db, head, k).accounts == db.accounts && Stage(db, head, k).nextUser == db.nextUser
  {
    var head := [TakeFromLots(restOwner, usd), InsertDeal(Deal(buyer, seller, done)), Deactivate(doneOwner)];
    var s1 := TakenFromLots(db, restOwner, usd);
    var s2 := NewDeal(s1, Deal(buyer, seller, done));
    assert Stage(db, head, 1) == s1;
    assert Stage(db, head, 2) == s2;
    assert Stage(db, head, 3) == Deactivated(s2, doneOwner);
  }

  // The one-sided settlement reaches its result only after its last statement: before that the working
  // tables hold the wrong amount of money exactly while the transfer is half done.
  lemma CloseOneStages(db: Db, done: nat, doneOwner: nat, restOwner: nat,
                       buyer: nat, seller: nat, usd: int, price: int)
    requires Good(db) && done in db.lots && !Recorded(db, done)
    requires buyer in db.accounts && seller in db.accounts
    ensures var script := CloseOneScript(done, doneOwner, restOwner, buyer, seller, usd, price);
      && Stage(db, script, |script|) == CloseOne(db, done, doneOwner, restOwner, buyer, seller, usd, price)
      && forall k :: 0 <= k <= |script| ==> OffBy(db, Stage(db, script, k), Imbalance(k - 3, usd, price))
  {
    var head := [TakeFromLots(restOwner, usd), InsertDeal(Deal(buyer, seller, done)), Deactivate(doneOwner)];
    assert UserIdUsed(db, buyer) && UserIdUsed(db, seller);
    CloseOneHead(db, done, doneOwner, restOwner, buyer, seller, usd);
    ScriptStages(db, head, buyer, seller, usd, price);
  }

  // The same for the two-sided settlement.
  lemma CloseBothStages(db: Db, sellLot: nat, buyLot: nat, sellOwner: nat, buyOwner: nat,
                        seller: nat, buyer: nat, usd: int, price: int)
    requires Good(db) && CanCloseBoth(db, sellLot, buyLot, seller, buyer)
    ensures var script := CloseBothScript(sellLot, buyLot, sellOwner, buyOwner, seller, buyer, usd, price);
      && Stage(db, script, |script|)
         == CloseBoth(db, sellLot, buyLot, sellOwner, buyOwner, seller, buyer, usd, price)
      && forall k :: 0 <= k <= |script| ==> OffBy(db, Stage(db, script, k), Imbalance(k - 4, usd, price))
  {
    var d1, d2 := Deal(buyer, seller, buyLot), Deal(buyer, seller, sellLot);
    var head := [InsertDeal(d1), Deactivate(buyOwner), InsertDeal(d2), Deactivate(sellOwner)];
    assert UserIdUsed(db, buyer) && UserIdUsed(db, seller);
    var s1 := NewDeal(db, d1);
    var s2 := Deactivated(s1, buyOwner);
    var s3 := NewDeal(s2, d2);
    assert Stage(db, head, 1) == s1;
    assert Stage(db, head, 2) == s2;
    assert Stage(db, head, 3) == s3 by {
      assert forall k :: 0 <= k < |db.deals| ==> s2.deals[k] == db.deals[k];
    }
    assert Stage(db, head, 4) == Deactivated(s3, sellOwner);
    ScriptStages(db, head, buyer, seller, usd, price);
  }
}
