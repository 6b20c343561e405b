/** What a purchase does: all or nothing, one item for exactly its price. */
module CatalogProperties {
  import opened Types
  import opened Search
  import opened Ledger
  import opened Db
  import opened LedgerProperties

  /** A purchase fails exactly when the buyer or the product is missing, the
      product is out of stock, or the buyer cannot afford it; a failed
      purchase changes nothing. */
  lemma BuyProductRejected(s: Store, userId: string, productId: string, txId: string, date: string)
    ensures var r := BuyProduct(s, userId, productId, txId, date);
      var ui := FirstIndex(s.users, UserWithId(userId));
      var pi := FirstIndex(s.products, ProductWithId(productId));
      (!r.ok <==> ui == -1 || pi == -1 || s.products[pi].stock <= 0 || s.users[ui].currentGold < s.products[pi].price) &&
      (!r.ok ==> r.store == s)
  {
  }

  /** A purchase that passes its checks takes exactly one item out of that
      product's stock, lowers the buyer's balance by exactly the price (it
      cannot be clamped, because the buyer can afford it), logs one SPEND of
      the price at the head of the log, and changes nothing else. */
  lemma BuyProductSucceeds(s: Store, userId: string, productId: string, txId: string, date: string, ui: int, pi: int)
    requires 0 <= ui < |s.users| && s.users[ui].id == userId
    requires forall j :: 0 <= j < ui ==> s.users[j].id != userId
    requires 0 <= pi < |s.products| && s.products[pi].id == productId
    requires forall j :: 0 <= j < pi ==> s.products[j].id != productId
    requires s.products[pi].stock > 0 && s.users[ui].currentGold >= s.products[pi].price
    ensures var r := BuyProduct(s, userId, productId, txId, date);
      var product := s.products[pi];
      r.ok &&
      r.store.products == s.products[pi := product.(stock := product.stock - 1)] &&
      r.store.users == s.users[ui := s.users[ui].(currentGold := s.users[ui].currentGold - product.price)] &&
      r.store.transactions ==
        [Transaction(txId, userId, Spend, product.price, "Purchased: " + product.name, date)] + s.transactions &&
      r.store.quests == s.quests && r.store.submissions == s.submissions
  {
    assert UserWithId(userId)(s.users[ui]);
    assert ProductWithId(productId)(s.products[pi]);
  }

  lemma BuyProductKeepsValid(s: Store, userId: string, productId: string, txId: string, date: string)
    requires Valid(s)
    ensures var t := BuyProduct(s, userId, productId, txId, date).store;
      Valid(t) && LedgerStep(s, t)
  {
    var r := BuyProduct(s, userId, productId, txId, date);
    if !r.ok {
      LedgerStepReflexive(s, r.store);
    } else {
      var pi := FirstIndex(s.products, ProductWithId(productId));
      var product := s.products[pi];
      var stocked := s.(products := s.products[pi := product.(stock := product.stock - 1)]);
      assert Valid(stocked);
      UpdateUserGoldKeepsValid(stocked, userId, product.price, Spend, "Purchased: " + product.name, txId, date);
    }
  }

  /** Buying the first seed product as the first seed student: 120 gold and
      a stock of 10 become 20 gold and a stock of 9, with one SPEND of 100. */
  lemma SeedPurchase(txId: string, date: string)
    ensures var r := BuyProduct(Seed(), "s1", "p1", txId, date);
      r.ok &&
      r.store.users[1].currentGold == 20 && r.store.users[1].totalEarnedGold == 150 &&
      r.store.products[0].stock == 9 &&
      r.store.transactions == [Transaction(txId, "s1", Spend, 100, "Purchased: Homework Pass", date)]
  {
    var s := Seed();
    assert !UserWithId("s1")(s.users[0]);
    BuyProductSucceeds(s, "s1", "p1", txId, date, 1, 0);
    assert "Purchased: " + s.products[0].name == "Purchased: Homework Pass";
    assert [Transaction(txId, "s1", Spend, 100, "Purchased: Homework Pass", date)] + [] ==
           [Transaction(txId, "s1", Spend, 100, "Purchased: Homework Pass", date)];
  }
}
