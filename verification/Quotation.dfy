/**
 The quotation query.  It reads the latest deals twice: once for the prices of their lots and once
 for their dates, and then walks both results with the index of the first.
 */
module Quotation {
  import opened Tables

  // Some choice of at most `limit` deals, as many as there are.  Dates are not unique, so the two
  // queries may choose differently.
  ghost predicate Latest(db: Db, ks: seq<nat>, limit: nat) {
    && |ks| == (if |db.deals| < limit then |db.deals| else limit)
    && (forall i :: 0 <= i < |ks| ==> ks[i] < |db.deals|)
    && (forall i, j :: 0 <= i < j < |ks| ==> ks[i] != ks[j])
  }

  // The lots whose price the first query returns.
  function LotsOf(db: Db, ks: seq<nat>): set<nat>
    requires forall i :: 0 <= i < |ks| ==> ks[i] < |db.deals|
  {
    if ks == [] then {} else LotsOf(db, ks[..|ks| - 1]) + {db.deals[ks[|ks| - 1]].lot}
  }

  lemma {:induction false} LotsOfMember(db: Db, ks: seq<nat>, l: nat)
    requires forall i :: 0 <= i < |ks| ==> ks[i] < |db.deals|
    requires l in LotsOf(db, ks)
    ensures exists i :: 0 <= i < |ks| && db.deals[ks[i]].lot == l
  {
    var n := |ks| - 1;
    if l == db.deals[ks[n]].lot {
    } else {
      LotsOfMember(db, ks[..n], l);
      var i :| 0 <= i < n && db.deals[ks[..n][i]].lot == l;
      assert ks[i] == ks[..n][i];
    }
  }

  // Deals name existing lots, each at most once: there are as many prices as chosen deals.
  lemma {:induction false} OneLotPerDeal(db: Db, ks: seq<nat>)
    requires Good(db)
    requires forall i :: 0 <= i < |ks| ==> ks[i] < |db.deals|
    requires forall i, j :: 0 <= i < j < |ks| ==> ks[i] != ks[j]
    ensures LotsOf(db, ks) <= db.lots.Keys && |LotsOf(db, ks)| == |ks|
  {
    if ks != [] {
      var n := |ks| - 1;
      OneLotPerDeal(db, ks[..n]);
      var l := db.deals[ks[n]].lot;
      assert DealSound(db, ks[n]);
      forall i | 0 <= i < n ensures db.deals[ks[..n][i]].lot != l {
        assert DealsApart(db, ks[i], ks[n]) && DealsApart(db, ks[n], ks[i]);
      }
      if l in LotsOf(db, ks[..n]) {
        LotsOfMember(db, ks[..n], l);
      }
    }
  }

  // Both results have the same size, so the walk over the prices never reads past the dates.
  lemma SizesAgree(db: Db, forPrices: seq<nat>, forDates: seq<nat>, limit: nat)
    requires Good(db) && Latest(db, forPrices, limit) && Latest(db, forDates, limit)
    ensures LotsOf(db, forPrices) <= db.lots.Keys
    ensures |LotsOf(db, forPrices)| == |forDates| == (if |db.deals| < limit then |db.deals| else limit)
  {
    OneLotPerDeal(db, forPrices);
  }

  // A deal whose date was read, and the price of some lot.
  datatype Quote = Quote(dateOf: nat, price: int)

  ghost predicate Distinct(order: seq<nat>) {
    forall i, j :: 0 <= i < j < |order| ==> order[i] != order[j]
  }

  // The lots of the chosen deals, each once, in some order.
  ghost predicate ListsLots(db: Db, ks: seq<nat>, order: seq<nat>) {
    && Distinct(order)
    && (forall i :: 0 <= i < |ks| ==> ks[i] < |db.deals| && db.deals[ks[i]].lot in order)
    && (forall l :: l in order ==> exists i :: 0 <= i < |ks| && ks[i] < |db.deals| && db.deals[ks[i]].lot == l)
  }

  predicate PricedAs(db: Db, order: seq<nat>, quotes: seq<Quote>) {
    && |quotes| == |order|
    && (forall i :: 0 <= i < |quotes| ==> order[i] in db.lots && quotes[i].price == db.lots[order[i]].price)
  }

  // One quote per chosen deal: the i-th date is the i-th chosen one, and the prices are those of the lots
  // of the chosen deals, each lot once.
  ghost predicate QuotationOf(db: Db, forPrices: seq<nat>, forDates: seq<nat>, quotes: seq<Quote>) {
    && |quotes| == |forDates|
    && (forall i :: 0 <= i < |quotes| ==> quotes[i].dateOf == forDates[i])
    && exists order :: ListsLots(db, forPrices, order) && PricedAs(db, order, quotes)
  }

  lemma {:induction false} LotsOfContains(db: Db, ks: seq<nat>, i: nat)
    requires forall j :: 0 <= j < |ks| ==> ks[j] < |db.deals|
    requires i < |ks|
    ensures db.deals[ks[i]].lot in LotsOf(db, ks)
  {
    var n := |ks| - 1;
    if i < n {
      LotsOfContains(db, ks[..n], i);
    }
  }

  lemma OrderLists(db: Db, ks: seq<nat>, order: seq<nat>)
    requires forall j :: 0 <= j < |ks| ==> ks[j] < |db.deals|
    requires Distinct(order) && forall l :: l in order <==> l in LotsOf(db, ks)
    ensures ListsLots(db, ks, order)
  {
    forall i | 0 <= i < |ks| ensures db.deals[ks[i]].lot in order {
      LotsOfContains(db, ks, i);
    }
    forall l | l in order ensures exists i :: 0 <= i < |ks| && ks[i] < |db.deals| && db.deals[ks[i]].lot == l {
      LotsOfMember(db, ks, l);
    }
  }

  // The quotation, given the choices of the two queries.
  method Quotes(db: Db, forPrices: seq<nat>, forDates: seq<nat>, limit: nat) returns (quotes: seq<Quote>)
    requires Good(db) && Latest(db, forPrices, limit) && Latest(db, forDates, limit)
    ensures |quotes| == (if |db.deals| < limit then |db.deals| else limit)
    ensures QuotationOf(db, forPrices, forDates, quotes)
  {
    SizesAgree(db, forPrices, forDates, limit);
    var left := LotsOf(db, forPrices);
    ghost var all := left;
    ghost var order: seq<nat> := [];
    quotes := [];
    while left != {}
      invariant left <= all && |quotes| + |left| == |forDates|
      invariant forall i :: 0 <= i < |quotes| ==> quotes[i].dateOf == forDates[i]
      invariant PricedAs(db, order, quotes)
      invariant Distinct(order) && forall l :: l in order <==> l in all - left
      decreases |left|
    {
      var l :| l in left;
      assert l !in order;
      quotes := quotes + [Quote(forDates[|quotes|], db.lots[l].price)];
      order := order + [l];
      left := left - {l};
    }
    OrderLists(db, forPrices, order);
  }
}
