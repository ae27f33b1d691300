/**
 The constraints of the schema on their own, against the checks every statement makes.
 */
module Schema {
  import opened Tables

  predicate DealReferences(db: Db, k: nat) {
    k < |db.deals| ==>
      db.deals[k].lot in db.lots && db.deals[k].buyer in db.accounts && db.deals[k].seller in db.accounts
  }

  // Primary keys come from serials, user names and recorded lots are unique, references exist.
  ghost predicate Schematic(db: Db) {
    && (forall u :: UserIdUsed(db, u))
    && (forall u, v :: NamesApart(db, u, v))
    && (forall i :: LotSound(db, i))
    && (forall k :: DealReferences(db, k))
    && (forall j, k :: DealsApart(db, j, k))
  }

  // What a statement would do without any check.
  function Unchecked(db: Db, st: Statement): Db {
    match st
    case InsertAccount(name, digest) => NewAccount(db, name, digest)
    case InsertLot(lot) => NewLot(db, lot)
    case DeleteLot(id) => RemoveLot(db, id)
    case InsertDeal(deal) => NewDeal(db, deal)
    case TakeFromLots(user, usd) => TakenFromLots(db, user, usd)
    case Deactivate(user) => Deactivated(db, user)
    case AddUsd(user, usd) => UsdAdded(db, user, usd)
    case AddRub(user, rub) => RubAdded(db, user, rub)
  }

  lemma GoodIsSchematic(db: Db)
    requires Good(db)
    ensures Schematic(db)
  {
    forall k: nat ensures DealReferences(db, k) {
      assert DealSound(db, k);
    }
  }

  // A statement that is accepted keeps the schema.
  lemma AcceptedKeepsSchema(db: Db, st: Statement)
    requires Schematic(db) && Execute(db, st).Success?
    ensures Execute(db, st).value == Unchecked(db, st) && Schematic(Unchecked(db, st))
  {
    var r := Unchecked(db, st);
    forall u: nat ensures UserIdUsed(r, u) {
      assert UserIdUsed(db, u);
    }
    forall u: nat, v: nat ensures NamesApart(r, u, v) {
      assert NamesApart(db, u, v) && UserIdUsed(db, u) && UserIdUsed(db, v);
    }
    forall i: nat ensures LotSound(r, i) {
      assert LotSound(db, i);
    }
    forall k: nat ensures DealReferences(r, k) {
      assert DealReferences(db, k);
    }
    forall j: nat, k: nat ensures DealsApart(r, j, k) {
      assert DealsApart(db, j, k);
    }
  }

  // A statement that is refused would have broken it.
  lemma RefusedWouldBreakSchema(db: Db, st: Statement)
    requires Schematic(db) && Execute(db, st).Failure?
    ensures !Schematic(Unchecked(db, st))
  {
    var r := Unchecked(db, st);
    match st
    case InsertAccount(name, _) =>
      var u: nat :| u in db.accounts && db.accounts[u].name == name;
      assert UserIdUsed(db, u);
      assert !NamesApart(r, u, db.nextUser);
    case InsertLot(_) =>
      assert !LotSound(r, db.nextLot);
    case DeleteLot(id) =>
      var k: nat :| k < |db.deals| && db.deals[k].lot == id;
      assert !DealReferences(r, k);
    case InsertDeal(deal) =>
      var n := |db.deals|;
      assert r.deals[n] == deal;
      if k: nat :| k < n && db.deals[k].lot == deal.lot {
        assert r.deals[k] == db.deals[k];
        assert !DealsApart(r, k, n);
      } else {
        assert !DealReferences(r, n);
      }
    case _ =>
  }

  // So a statement is accepted exactly when its effect keeps the schema.
  lemma AcceptedIffSchematic(db: Db, st: Statement)
    requires Schematic(db)
    ensures Execute(db, st).Success? <==> Schematic(Unchecked(db, st))
  {
    if Execute(db, st).Success? {
      AcceptedKeepsSchema(db, st);
    } else {
      RefusedWouldBreakSchema(db, st);
    }
  }
}
