/**
 The three tables of the exchange, the integrity constraints their schema declares,
 and the effect of every SQL statement the server issues.  A `serial` column is a
 counter that never goes back, so an id is never reused.
 */
module Tables {
  import opened Wrappers

  datatype Side = Sell | Buy

  // A row of `data`; `digest` is the stored password hash.
  datatype Account = Account(name: string, digest: string, usd: int, rub: int)

  // A row of `requests`.
  datatype Lot = Lot(user: nat, side: Side, usd: int, price: int, active: bool)

  // A row of `deal_history`; its id is its position.
  datatype Deal = Deal(buyer: nat, seller: nat, lot: nat)

  datatype Db = Db(accounts: map<nat, Account>, nextUser: nat,
                   lots: map<nat, Lot>, nextLot: nat,
                   deals: seq<Deal>)

  const EMPTY := Db(map[], 1, map[], 1, [])

  datatype Money = Money(usd: int, rub: int)

  datatype SqlError = UniqueViolation | ForeignKeyViolation | UnexpectedRows | TransactionAborted

  // ---------------------------------------------------------------- integrity

  ghost predicate Recorded(db: Db, lot: nat) {
    exists k :: 0 <= k < |db.deals| && db.deals[k].lot == lot
  }

  predicate UserIdUsed(db: Db, u: nat) {
    u in db.accounts ==> u < db.nextUser
  }

  predicate NamesApart(db: Db, u: nat, v: nat) {
    u in db.accounts && v in db.accounts && db.accounts[u].name == db.accounts[v].name ==> u == v
  }

  predicate LotSound(db: Db, i: nat) {
    i in db.lots ==> i < db.nextLot && db.lots[i].user in db.accounts
  }

  // The references of a deal exist; a lot that has been dealt is out of the book; a deal has two
  // parties, and the owner of the recorded lot took its own side.
  predicate DealSound(db: Db, k: nat) {
    k < |db.deals| ==>
      var d := db.deals[k];
      && d.lot in db.lots && d.buyer in db.accounts && d.seller in db.accounts
      && !db.lots[d.lot].active
      && d.buyer != d.seller
      && db.lots[d.lot].user == (if db.lots[d.lot].side == Sell then d.seller else d.buyer)
  }

  predicate DealsApart(db: Db, j: nat, k: nat) {
    j < k < |db.deals| ==> db.deals[j].lot != db.deals[k].lot
  }

  // Keys, unique indexes and references as the schema declares them, and what settlement keeps on
  // top of them.
  ghost predicate Good(db: Db) {
    && (forall u :: UserIdUsed(db, u))
    && (forall u, v :: NamesApart(db, u, v))
    && (forall i :: LotSound(db, i))
    && (forall k :: DealSound(db, k))
    && (forall j, k :: DealsApart(db, j, k))
  }

  lemma OwnerThere(db: Db, i: nat)
    requires Good(db) && i in db.lots
    ensures i < db.nextLot && db.lots[i].user in db.accounts && db.lots[i].user < db.nextUser
  {
    assert LotSound(db, i);
    assert UserIdUsed(db, db.lots[i].user);
  }

  // A lot in the book is not in the history, so the reference from the history cannot dangle.
  lemma ActiveUnrecorded(db: Db, i: nat)
    requires Good(db) && i in db.lots && db.lots[i].active
    ensures !Recorded(db, i)
  {
    forall k | 0 <= k < |db.deals| ensures db.deals[k].lot != i {
      assert DealSound(db, k);
    }
  }

  // ---------------------------------------------------------------- statements

  // The statements that change something.
  datatype Statement =
    | InsertAccount(name: string, digest: string)
    | InsertLot(lot: Lot)
    | DeleteLot(id: nat)
    | InsertDeal(deal: Deal)
    | TakeFromLots(user: nat, usd: int)
    | Deactivate(user: nat)
    | AddUsd(user: nat, usd: int)
    | AddRub(user: nat, rub: int)

  function NewAccount(db: Db, name: string, digest: string): Db {
    db.(accounts := db.accounts[db.nextUser := Account(name, digest, 0, 0)], nextUser := db.nextUser + 1)
  }

  function NewLot(db: Db, lot: Lot): Db {
    db.(lots := db.lots[db.nextLot := lot], nextLot := db.nextLot + 1)
  }

  function RemoveLot(db: Db, id: nat): Db {
    db.(lots := db.lots - {id})
  }

  function NewDeal(db: Db, deal: Deal): Db {
    db.(deals := db.deals + [deal])
  }

  // The update selects by owner, so it reaches all lots of `user`, active or not.
  function TakenFromLots(db: Db, user: nat, usd: int): Db {
    db.(lots := map i | i in db.lots ::
                  if db.lots[i].user == user then db.lots[i].(usd := db.lots[i].usd - usd) else db.lots[i])
  }

  // The same for the flag.
  function Deactivated(db: Db, user: nat): Db {
    db.(lots := map i | i in db.lots ::
                  if db.lots[i].user == user then db.lots[i].(active := false) else db.lots[i])
  }

  function UsdAdded(db: Db, user: nat, usd: int): Db {
    if user in db.accounts then
      db.(accounts := db.accounts[user := db.accounts[user].(usd := db.accounts[user].usd + usd)])
    else db
  }

  function RubAdded(db: Db, user: nat, rub: int): Db {
    if user in db.accounts then
      db.(accounts := db.accounts[user := db.accounts[user].(rub := db.accounts[user].rub + rub)])
    else db
  }

  // Executes one statement, with the constraint checks PostgreSQL makes.
  function Execute(db: Db, st: Statement): (r: Result<Db, SqlError>) {
    match st
    case InsertAccount(name, digest) =>
      if exists u | u in db.accounts :: db.accounts[u].name == name then Failure(UniqueViolation)
      else Success(NewAccount(db, name, digest))
    case InsertLot(lot) =>
      if lot.user !in db.accounts then Failure(ForeignKeyViolation)
      else Success(NewLot(db, lot))
    case DeleteLot(id) =>
      if exists k | 0 <= k < |db.deals| :: db.deals[k].lot == id then Failure(ForeignKeyViolation)
      else Success(RemoveLot(db, id))
    case InsertDeal(deal) =>
      if exists k | 0 <= k < |db.deals| :: db.deals[k].lot == deal.lot then Failure(UniqueViolation)
      else if deal.lot !in db.lots || deal.buyer !in db.accounts || deal.seller !in db.accounts
      then Failure(ForeignKeyViolation)
      else Success(NewDeal(db, deal))
    case TakeFromLots(user, usd) => Success(TakenFromLots(db, user, usd))
    case Deactivate(user) => Success(Deactivated(db, user))
    case AddUsd(user, usd) => Success(UsdAdded(db, user, usd))
    case AddRub(user, rub) => Success(RubAdded(db, user, rub))
  }

  // ---------------------------------------------------------------- totals

  // The money on the accounts with an id below n.
  function MoneyBelow(accounts: map<nat, Account>, n: nat): Money {
    if n == 0 then Money(0, 0)
    else
      var m := MoneyBelow(accounts, n - 1);
      if n - 1 in accounts then Money(m.usd + accounts[n - 1].usd, m.rub + accounts[n - 1].rub) else m
  }

  function Total(db: Db): Money {
    MoneyBelow(db.accounts, db.nextUser)
  }

  // Replacing one account shifts the sum by the change on that account.
  lemma {:induction false} MoneyBelowUpdate(accounts: map<nat, Account>, u: nat, a: Account, n: nat)
    requires u in accounts
    ensures MoneyBelow(accounts[u := a], n).usd
         == MoneyBelow(accounts, n).usd + (if u < n then a.usd - accounts[u].usd else 0)
    ensures MoneyBelow(accounts[u := a], n).rub
         == MoneyBelow(accounts, n).rub + (if u < n then a.rub - accounts[u].rub else 0)
  {
    if n > 0 {
      MoneyBelowUpdate(accounts, u, a, n - 1);
    }
  }

  // Ids the sum does not reach are irrelevant to it.
  lemma {:induction false} MoneyBelowAgree(a: map<nat, Account>, b: map<nat, Account>, n: nat)
    requires forall u :: u < n ==> (u in a <==> u in b) && (u in a ==> a[u] == b[u])
    ensures MoneyBelow(a, n) == MoneyBelow(b, n)
  {
    if n > 0 {
      MoneyBelowAgree(a, b, n - 1);
    }
  }

  lemma UsdAddedTotal(db: Db, user: nat, usd: int)
    requires user in db.accounts && user < db.nextUser
    ensures Total(UsdAdded(db, user, usd)) == Money(Total(db).usd + usd, Total(db).rub)
  {
    MoneyBelowUpdate(db.accounts, user, db.accounts[user].(usd := db.accounts[user].usd + usd), db.nextUser);
  }

  lemma RubAddedTotal(db: Db, user: nat, rub: int)
    requires user in db.accounts && user < db.nextUser
    ensures Total(RubAdded(db, user, rub)) == Money(Total(db).usd, Total(db).rub + rub)
  {
    MoneyBelowUpdate(db.accounts, user, db.accounts[user].(rub := db.accounts[user].rub + rub), db.nextUser);
  }
}
