/**
 Settling a trade: one or both lots are closed, the deal is recorded and the money moves,
 all in one transaction.  The updates of `requests` select rows by owner, as the server's do.
 */
module Settlement {
  import opened Tables

  datatype TransactionInfo = TransactionInfo(id: nat, usd: int, price: int, seller: string, buyer: string)

  function NameOf(db: Db, user: nat): string {
    if user in db.accounts then db.accounts[user].name else ""
  }

  function AmountOf(db: Db, lot: nat): int {
    if lot in db.lots then db.lots[lot].usd else 0
  }

  // `usd` dollars go from seller to buyer, `cost` roubles the other way.
  function Transfer(db: Db, buyer: nat, seller: nat, usd: int, cost: int): Db {
    RubAdded(UsdAdded(RubAdded(UsdAdded(db, buyer, usd), buyer, -cost), seller, -usd), seller, cost)
  }

  // `done` is filled and closed, owned by `doneOwner`; `restOwner` keeps a lot with `usd` less in it.
  function CloseOne(db: Db, done: nat, doneOwner: nat, restOwner: nat,
                    buyer: nat, seller: nat, usd: int, price: int): Db {
    Transfer(
      Deactivated(NewDeal(TakenFromLots(db, restOwner, usd), Deal(buyer, seller, done)), doneOwner),
      buyer, seller, usd, price * usd)
  }

  // Both lots are filled and closed, with all other lots of their owners.
  function CloseBoth(db: Db, sellLot: nat, buyLot: nat, sellOwner: nat, buyOwner: nat,
                     seller: nat, buyer: nat, usd: int, price: int): Db {
    Transfer(
      Deactivated(NewDeal(
        Deactivated(NewDeal(db, Deal(buyer, seller, buyLot)), buyOwner),
        Deal(buyer, seller, sellLot)), sellOwner),
      buyer, seller, usd, price * usd)
  }

  // ---------------------------------------------------------------- effects

  // The same accounts under the same names.
  ghost predicate SamePeople(a: Db, b: Db) {
    && a.accounts.Keys == b.accounts.Keys
    && (forall u :: u in b.accounts ==>
          b.accounts[u].name == a.accounts[u].name && b.accounts[u].digest == a.accounts[u].digest)
  }

  // Nothing but money differs.
  ghost predicate OnlyMoneyDiffers(a: Db, b: Db) {
    && a.nextUser == b.nextUser && a.nextLot == b.nextLot && a.lots == b.lots && a.deals == b.deals
    && SamePeople(a, b)
  }

  // What one account gains in a trade.
  function Gain(user: nat, buyer: nat, seller: nat, usd: int, cost: int): Money {
    Money((if user == buyer then usd else 0) - (if user == seller then usd else 0),
          (if user == seller then cost else 0) - (if user == buyer then cost else 0))
  }

  // A transfer moves money between its two parties, and neither creates nor destroys any.
  lemma TransferMoves(db: Db, buyer: nat, seller: nat, usd: int, cost: int)
    requires buyer in db.accounts && buyer < db.nextUser && seller in db.accounts && seller < db.nextUser
    ensures var r := Transfer(db, buyer, seller, usd, cost);
      && OnlyMoneyDiffers(db, r)
      && Total(r) == Total(db)
      && forall u :: u in db.accounts ==>
          var g := Gain(u, buyer, seller, usd, cost);
          r.accounts[u].usd == db.accounts[u].usd + g.usd && r.accounts[u].rub == db.accounts[u].rub + g.rub
  {
    var a := UsdAdded(db, buyer, usd);
    UsdAddedTotal(db, buyer, usd);
    var b := RubAdded(a, buyer, -cost);
    RubAddedTotal(a, buyer, -cost);
    var c := UsdAdded(b, seller, -usd);
    UsdAddedTotal(b, seller, -usd);
    RubAddedTotal(c, seller, cost);
  }

  // The owner of the recorded lot is the party on that lot's own side.
  ghost predicate OwnSide(db: Db, lot: nat, buyer: nat, seller: nat) {
    lot in db.lots && db.lots[lot].user == (if db.lots[lot].side == Sell then seller else buyer)
  }

  // From a to b lots keep their identity and only leave the book, and accounts change in money only.
  ghost predicate BookShrinks(a: Db, b: Db) {
    && SamePeople(a, b) && a.nextUser == b.nextUser && a.nextLot == b.nextLot
    && a.lots.Keys == b.lots.Keys
    && (forall i :: i in a.lots ==>
          && b.lots[i].user == a.lots[i].user
          && b.lots[i].side == a.lots[i].side
          && b.lots[i].price == a.lots[i].price
          && (b.lots[i].active ==> a.lots[i].active))
  }

  // Recording a deal on an unrecorded lot that leaves the book keeps every invariant of the tables.
  lemma DealKeepsGood(a: Db, b: Db, d: Deal)
    requires Good(a) && BookShrinks(a, b) && b.deals == a.deals + [d]
    requires !Recorded(a, d.lot) && OwnSide(a, d.lot, d.buyer, d.seller) && !b.lots[d.lot].active
    requires d.buyer in a.accounts && d.seller in a.accounts && d.buyer != d.seller
    ensures Good(b)
  {
    forall u: nat ensures UserIdUsed(b, u) {
      assert UserIdUsed(a, u);
    }
    forall u: nat, v: nat ensures NamesApart(b, u, v) {
      assert NamesApart(a, u, v);
    }
    forall i: nat ensures LotSound(b, i) {
      assert LotSound(a, i);
    }
    forall k: nat ensures DealSound(b, k) {
      assert DealSound(a, k);
      assert k < |a.deals| ==> b.deals[k] == a.deals[k];
    }
    forall j: nat, k: nat ensures DealsApart(b, j, k) {
      assert DealsApart(a, j, k);
      assert j < |a.deals| ==> b.deals[j] == a.deals[j];
      assert k < |a.deals| ==> b.deals[k] == a.deals[k];
    }
  }

  function LotAfterOne(l: Lot, doneOwner: nat, restOwner: nat, usd: int): Lot {
    l.(usd := if l.user == restOwner then l.usd - usd else l.usd,
       active := l.active && l.user != doneOwner)
  }

  function LotAfterBoth(l: Lot, sellOwner: nat, buyOwner: nat): Lot {
    l.(active := l.active && l.user != buyOwner && l.user != sellOwner)
  }

  function LotsAfterOne(lots: map<nat, Lot>, doneOwner: nat, restOwner: nat, usd: int): map<nat, Lot> {
    map i | i in lots :: LotAfterOne(lots[i], doneOwner, restOwner, usd)
  }

  function LotsAfterBoth(lots: map<nat, Lot>, sellOwner: nat, buyOwner: nat): map<nat, Lot> {
    map i | i in lots :: LotAfterBoth(lots[i], sellOwner, buyOwner)
  }

  // The tables after a settlement, described independently of the order of its statements.
  ghost predicate Settled(db: Db, r: Db, lots: map<nat, Lot>, deals: seq<Deal>,
                          buyer: nat, seller: nat, usd: int, cost: int) {
    && r.lots == lots
    && r.deals == deals
    && OnlyMoneyDiffers(db.(lots := lots, deals := deals), r)
    && (forall u :: u in db.accounts ==>
          var g := Gain(u, buyer, seller, usd, cost);
          r.accounts[u].usd == db.accounts[u].usd + g.usd && r.accounts[u].rub == db.accounts[u].rub + g.rub)
  }

  lemma TransferKeepsDeals(db: Db, buyer: nat, seller: nat, usd: int, cost: int)
    ensures Transfer(db, buyer, seller, usd, cost).deals == db.deals
  {
  }

  lemma CloseOneDeals(db: Db, done: nat, doneOwner: nat, restOwner: nat, buyer: nat, seller: nat, usd: int, price: int)
    ensures CloseOne(db, done, doneOwner, restOwner, buyer, seller, usd, price).deals
         == db.deals + [Deal(buyer, seller, done)]
  {
    TransferKeepsDeals(Deactivated(NewDeal(TakenFromLots(db, restOwner, usd), Deal(buyer, seller, done)), doneOwner),
                       buyer, seller, usd, price * usd);
  }

  lemma CloseBothDeals(db: Db, sellLot: nat, buyLot: nat, sellOwner: nat, buyOwner: nat,
                       seller: nat, buyer: nat, usd: int, price: int)
    ensures CloseBoth(db, sellLot, buyLot, sellOwner, buyOwner, seller, buyer, usd, price).deals
         == db.deals + [Deal(buyer, seller, buyLot), Deal(buyer, seller, sellLot)]
  {
    var a := Deactivated(NewDeal(
        Deactivated(NewDeal(db, Deal(buyer, seller, buyLot)), buyOwner),
        Deal(buyer, seller, sellLot)), sellOwner);
    assert a.deals == db.deals + [Deal(buyer, seller, buyLot), Deal(buyer, seller, sellLot)];
    TransferKeepsDeals(a, buyer, seller, usd, price * usd);
  }

  lemma CloseOneEffect(db: Db, done: nat, doneOwner: nat, restOwner: nat,
                       buyer: nat, seller: nat, usd: int, price: int)
    requires buyer in db.accounts && buyer < db.nextUser && seller in db.accounts && seller < db.nextUser
    ensures var r := CloseOne(db, done, doneOwner, restOwner, buyer, seller, usd, price);
      && Total(r) == Total(db)
      && Settled(db, r, LotsAfterOne(db.lots, doneOwner, restOwner, usd),
                 db.deals + [Deal(buyer, seller, done)], buyer, seller, usd, price * usd)
  {
    var a := Deactivated(NewDeal(TakenFromLots(db, restOwner, usd), Deal(buyer, seller, done)), doneOwner);
    assert a.lots == LotsAfterOne(db.lots, doneOwner, restOwner, usd);
    TransferMoves(a, buyer, seller, usd, price * usd);
  }

  lemma CloseBothEffect(db: Db, sellLot: nat, buyLot: nat, sellOwner: nat, buyOwner: nat,
                        seller: nat, buyer: nat, usd: int, price: int)
    requires buyer in db.accounts && buyer < db.nextUser && seller in db.accounts && seller < db.nextUser
    ensures var r := CloseBoth(db, sellLot, buyLot, sellOwner, buyOwner, seller, buyer, usd, price);
      && Total(r) == Total(db)
      && Settled(db, r, LotsAfterBoth(db.lots, sellOwner, buyOwner),
                 db.deals + [Deal(buyer, seller, buyLot), Deal(buyer, seller, sellLot)],
                 buyer, seller, usd, price * usd)
  {
    var a := Deactivated(NewDeal(
        Deactivated(NewDeal(db, Deal(buyer, seller, buyLot)), buyOwner),
        Deal(buyer, seller, sellLot)), sellOwner);
    assert a.lots == LotsAfterBoth(db.lots, sellOwner, buyOwner);
    TransferMoves(a, buyer, seller, usd, price * usd);
  }

  // Closing one lot keeps every invariant of the tables.
  lemma CloseOneKeepsGood(db: Db, done: nat, doneOwner: nat, restOwner: nat,
                          buyer: nat, seller: nat, usd: int, price: int)
    requires Good(db) && !Recorded(db, done)
    requires buyer in db.accounts && seller in db.accounts && buyer != seller
    requires OwnSide(db, done, buyer, seller) && db.lots[done].user == doneOwner
    ensures Good(CloseOne(db, done, doneOwner, restOwner, buyer, seller, usd, price))
  {
    assert UserIdUsed(db, buyer) && UserIdUsed(db, seller);
    CloseOneEffect(db, done, doneOwner, restOwner, buyer, seller, usd, price);
    DealKeepsGood(db, CloseOne(db, done, doneOwner, restOwner, buyer, seller, usd, price), Deal(buyer, seller, done));
  }

  // Recording two deals at once, stated on the tables alone.
  lemma TwoDealsKeepGood(db: Db, r: Db, d1: Deal, d2: Deal, usd: int, cost: int)
    requires Good(db)
    requires d2.buyer in db.accounts && d2.seller in db.accounts && d2.buyer != d2.seller
    requires d1.buyer == d2.buyer && d1.seller == d2.seller && d1.lot != d2.lot
    requires Settled(db, r, LotsAfterBoth(db.lots, d2.seller, d2.buyer),
                     db.deals + [d1, d2], d2.buyer, d2.seller, usd, cost)
    requires !Recorded(db, d1.lot) && OwnSide(db, d1.lot, d1.buyer, d1.seller)
    requires !Recorded(db, d2.lot) && OwnSide(db, d2.lot, d2.buyer, d2.seller)
    ensures Good(r)
  {
    var mid := db.(lots := r.lots, deals := db.deals + [d1]);
    DealKeepsGood(db, mid, d1);
    assert r.deals == mid.deals + [d2];
    assert !Recorded(mid, d2.lot) by {
      forall k | 0 <= k < |mid.deals| ensures mid.deals[k].lot != d2.lot {
        assert k < |db.deals| ==> mid.deals[k] == db.deals[k];
      }
    }
    DealKeepsGood(mid, r, d2);
  }

  // Closing two lots of different owners does the same.
  lemma CloseBothKeepsGood(db: Db, sellLot: nat, buyLot: nat, seller: nat, buyer: nat, usd: int, price: int)
    requires Good(db) && !Recorded(db, sellLot) && !Recorded(db, buyLot)
    requires sellLot in db.lots && db.lots[sellLot].side == Sell && db.lots[sellLot].user == seller
    requires buyLot in db.lots && db.lots[buyLot].side == Buy && db.lots[buyLot].user == buyer
    requires buyer != seller
    ensures Good(CloseBoth(db, sellLot, buyLot, seller, buyer, seller, buyer, usd, price))
  {
    OwnerThere(db, sellLot);
    OwnerThere(db, buyLot);
    CloseBothEffect(db, sellLot, buyLot, seller, buyer, seller, buyer, usd, price);
    TwoDealsKeepGood(db, CloseBoth(db, sellLot, buyLot, seller, buyer, seller, buyer, usd, price),
                     Deal(buyer, seller, buyLot), Deal(buyer, seller, sellLot), usd, price * usd);
  }
}
