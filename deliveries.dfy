/**
 * The delivery controller: assigning a delivery (taking its quantity out of the godown's stock),
 * updating it (moving the stock difference when the quantity changes), and completing it (crediting
 * the quantity to the PDS shop's stock). The stock ledger of an item is the sum of its quantities
 * over all stock documents.
 */
module DeliveryController {
  import opened Wrappers
  import opened Strings
  import opened UserModel
  import opened DeliveryModel
  import opened StockModel
  import opened Store

  /** The roles that may create, update or complete a delivery. */
  const DeliveryRoles: seq<Role> := [Admin, DeliveryPersonnel]

  // ---------------------------------------------------------------------------------------------
  // The stock ledger
  // ---------------------------------------------------------------------------------------------

  /** What stock `s` counts towards the holdings of `item`. */
  function Contribution(s: Stock, item: string): int {
    if s.rationItem == item then s.quantity else 0
  }

  ghost function SumOver(docs: map<string, Stock>, keys: set<string>, item: string): int
    requires keys <= docs.Keys
    decreases keys
  {
    if keys == {} then 0
    else
      var k :| k in keys;
      Contribution(docs[k], item) + SumOver(docs, keys - {k}, item)
  }

  /** The quantity of `item` held across every godown and shop. */
  ghost function Holdings(docs: map<string, Stock>, item: string): int {
    SumOver(docs, docs.Keys, item)
  }

  /** Any document can be taken out of the sum first. */
  lemma {:induction false} SumOverRemove(docs: map<string, Stock>, keys: set<string>, item: string, k: string)
    requires keys <= docs.Keys && k in keys
    ensures SumOver(docs, keys, item) == Contribution(docs[k], item) + SumOver(docs, keys - {k}, item)
    decreases keys
  {
    var x :| x in keys && SumOver(docs, keys, item) == Contribution(docs[x], item) + SumOver(docs, keys - {x}, item);
    if x != k {
      SumOverRemove(docs, keys - {x}, item, k);
      SumOverRemove(docs, keys - {k}, item, x);
      assert keys - {x} - {k} == keys - {k} - {x};
    }
  }

  /** Two collections that agree on `keys` have the same sum over them. */
  lemma {:induction false} SumOverAgree(d1: map<string, Stock>, d2: map<string, Stock>, keys: set<string>, item: string)
    requires keys <= d1.Keys && keys <= d2.Keys
    requires forall k | k in keys :: d1[k] == d2[k]
    ensures SumOver(d1, keys, item) == SumOver(d2, keys, item)
    decreases keys
  {
    if keys != {} {
      var x :| x in keys && SumOver(d1, keys, item) == Contribution(d1[x], item) + SumOver(d1, keys - {x}, item);
      SumOverRemove(d2, keys, item, x);
      SumOverAgree(d1, d2, keys - {x}, item);
    }
  }

  /** Saving or creating one stock document changes the holdings by the difference it makes. */
  lemma HoldingsUpdate(docs: map<string, Stock>, k: string, s: Stock, item: string)
    ensures Holdings(docs[k := s], item)
            == Holdings(docs, item) - (if k in docs then Contribution(docs[k], item) else 0) + Contribution(s, item)
  {
    var after := docs[k := s];
    SumOverRemove(after, after.Keys, item, k);
    assert after.Keys - {k} == docs.Keys - {k};
    SumOverAgree(after, docs, docs.Keys - {k}, item);
    if k in docs {
      SumOverRemove(docs, docs.Keys, item, k);
    } else {
      assert docs.Keys - {k} == docs.Keys;
    }
  }

  /** `stock.quantity -= quantity` on stock `k`. */
  function Debit(docs: map<string, Stock>, k: string, quantity: int): (r: map<string, Stock>)
    requires k in docs
    ensures r.Keys == docs.Keys
    ensures r[k].quantity == docs[k].quantity - quantity && r[k].(quantity := docs[k].quantity) == docs[k]
    ensures forall j | j in docs && j != k :: r[j] == docs[j]
  {
    docs[k := docs[k].(quantity := docs[k].quantity - quantity)]
  }

  /** A debit takes exactly `quantity` out of the holdings of the stock's item and no other. */
  lemma DebitHoldings(docs: map<string, Stock>, k: string, quantity: int, item: string)
    requires k in docs
    ensures Holdings(Debit(docs, k, quantity), item)
            == Holdings(docs, item) - (if docs[k].rationItem == item then quantity else 0)
  {
    HoldingsUpdate(docs, k, docs[k].(quantity := docs[k].quantity - quantity), item);
  }

  /**
   * The shop side of a completed delivery: the shop's stock of the item found by the query gains
   * `quantity`, or a new stock document `newId` is created holding it.
   */
  function Credit(docs: map<string, Stock>, found: Option<string>, newId: string, shop: string, item: string,
                  quantity: int): (r: map<string, Stock>)
    requires found.Some? ==> found.value in docs
  {
    match found
    case Some(k) => docs[k := docs[k].(quantity := docs[k].quantity + quantity)]
    case None => docs[newId := Stock(None, Some(shop), item, quantity)]
  }

  /**
   * A credit found by the shop query adds exactly `quantity` to the holdings of the item and changes
   * no other item's holdings.
   */
  lemma CreditHoldings(docs: map<string, Stock>, found: Option<string>, newId: string, shop: string, item: string,
                       quantity: int, other: string)
    requires FindsShopStock(docs, shop, item, found)
    requires newId !in docs
    ensures Holdings(Credit(docs, found, newId, shop, item, quantity), item) == Holdings(docs, item) + quantity
    ensures other != item ==> Holdings(Credit(docs, found, newId, shop, item, quantity), other) == Holdings(docs, other)
  {
    match found
    case Some(k) =>
      HoldingsUpdate(docs, k, docs[k].(quantity := docs[k].quantity + quantity), item);
      HoldingsUpdate(docs, k, docs[k].(quantity := docs[k].quantity + quantity), other);
    case None =>
      HoldingsUpdate(docs, newId, Stock(None, Some(shop), item, quantity), item);
      HoldingsUpdate(docs, newId, Stock(None, Some(shop), item, quantity), other);
  }

  // ---------------------------------------------------------------------------------------------
  // createDelivery
  // ---------------------------------------------------------------------------------------------

  /** The request body of a new delivery. */
  datatype DeliveryInput = DeliveryInput(vehicle: string, driver: string, godown: string, pdsShop: string,
                                         rationItem: string, quantity: int)

  /** Whether `driver` is an account of a delivery person. */
  predicate ValidDriver(users: map<string, User>, driver: string) {
    driver in users && users[driver].role == DeliveryPersonnel
  }

  /**
   * createDelivery: the godown's stock of the item (the query's answer `stockFound`) must cover the
   * quantity; it is debited and the delivery `newId` is created in transit, departing now.
   */
  method CreateDelivery(deliveries: Deliveries, stocks: Stocks, users: map<string, User>, user: User,
                        input: DeliveryInput, stockFound: Option<string>, newId: string, now: int)
    returns (r: Response<string>)
    requires FindsGodownStock(stocks.docs, input.godown, input.rationItem, stockFound)
    requires newId !in deliveries.docs
    modifies deliveries, stocks
    ensures user.role !in DeliveryRoles ==> r == Err(403)
    ensures user.role in DeliveryRoles && !ValidDriver(users, input.driver) ==> r == Err(400)
    ensures (user.role in DeliveryRoles && ValidDriver(users, input.driver) &&
             (stockFound.None? || old(stocks.docs)[stockFound.value].quantity < input.quantity)) ==> r == Err(400)
    ensures r.Err? ==> unchanged(deliveries, stocks)
    ensures r.Ok? ==>
              && user.role in DeliveryRoles && ValidDriver(users, input.driver)
              && stockFound.Some? && old(stocks.docs)[stockFound.value].quantity >= input.quantity
              && stocks.docs == Debit(old(stocks.docs), stockFound.value, input.quantity)
              && deliveries.docs == old(deliveries.docs)[newId := Delivery(input.vehicle, input.driver, input.godown,
                   input.pdsShop, input.rationItem, input.quantity, Some(now), None, InTransit, Some(user.id))]
              && r == Ok(201, newId)
  {
    if user.role !in DeliveryRoles {
      return Err(403);
    }
    if input.driver !in users || users[input.driver].role != DeliveryPersonnel {
      return Err(400);
    }
    if stockFound.None? || stocks.docs[stockFound.value].quantity < input.quantity {
      return Err(400);
    }
    var stock := stocks.docs[stockFound.value];
    stocks.docs := stocks.docs[stockFound.value := stock.(quantity := stock.quantity - input.quantity)];
    var delivery := Delivery(input.vehicle, input.driver, input.godown, input.pdsShop, input.rationItem, input.quantity,
                             Some(now), None, InTransit, Some(user.id));
    deliveries.docs := deliveries.docs[newId := delivery];
    r := Ok(201, newId);
  }

  // ---------------------------------------------------------------------------------------------
  // updateDelivery
  // ---------------------------------------------------------------------------------------------

  /** The request body of an update: every field may be absent. */
  datatype DeliveryChanges = DeliveryChanges(
    status: Option<DeliveryStatus>,
    arrivalTime: Option<int>,
    vehicle: Option<string>,
    driver: Option<string>,
    godown: Option<string>,
    pdsShop: Option<string>,
    rationItem: Option<string>,
    quantity: Option<int>)

  /** `x || fallback` for a number: present and non-zero, or the fallback. */
  function OrNumber(x: Option<int>, fallback: int): (r: int)
    ensures x.Some? && x.value != 0 ==> r == x.value
    ensures (x.None? || x.value == 0) ==> r == fallback
  {
    if x.Some? && x.value != 0 then x.value else fallback
  }

  /** Whether the update asks for a different quantity (a truthy quantity unlike the current one). */
  predicate ChangesQuantity(d: Delivery, c: DeliveryChanges) {
    c.quantity.Some? && c.quantity.value != 0 && c.quantity.value != d.quantity
  }

  /** The delivery after an update: each field takes the given value when it is truthy. */
  function Updated(d: Delivery, c: DeliveryChanges): Delivery {
    d.(status := if c.status.Some? then c.status.value else d.status,
       arrivalTime := if c.arrivalTime.Some? && c.arrivalTime.value != 0 then c.arrivalTime else d.arrivalTime,
       vehicle := OrElse(c.vehicle, d.vehicle),
       driver := OrElse(c.driver, d.driver),
       godown := OrElse(c.godown, d.godown),
       pdsShop := OrElse(c.pdsShop, d.pdsShop),
       rationItem := OrElse(c.rationItem, d.rationItem),
       quantity := OrNumber(c.quantity, d.quantity))
  }

  /** An update with nothing truthy in it leaves the delivery as it was. */
  lemma EmptyUpdateKeeps(d: Delivery)
    ensures Updated(d, DeliveryChanges(None, None, None, None, Some(""), None, None, Some(0))) == d
    ensures Updated(d, DeliveryChanges(None, None, None, None, None, None, None, None)) == d
  {
  }

  /** Applying the same update twice gives what applying it once gives; a quantity of 0 keeps the old one. */
  lemma UpdateIdempotent(d: Delivery, c: DeliveryChanges)
    ensures Updated(Updated(d, c), c) == Updated(d, c)
    ensures c.quantity == Some(0) ==> Updated(d, c).quantity == d.quantity
    ensures !ChangesQuantity(Updated(d, c), c)
  {
  }

  /** The field-by-field assignment of the changes onto the delivery document. */
  method ApplyChanges(d: Delivery, c: DeliveryChanges) returns (delivery: Delivery)
    ensures delivery == Updated(d, c)
  {
    delivery := d;
    delivery := delivery.(status := if c.status.Some? then c.status.value else delivery.status);
    delivery := delivery.(arrivalTime := if c.arrivalTime.Some? && c.arrivalTime.value != 0 then c.arrivalTime else delivery.arrivalTime);
    delivery := delivery.(vehicle := OrElse(c.vehicle, delivery.vehicle));
    delivery := delivery.(driver := OrElse(c.driver, delivery.driver));
    delivery := delivery.(godown := OrElse(c.godown, delivery.godown));
    delivery := delivery.(pdsShop := OrElse(c.pdsShop, delivery.pdsShop));
    delivery := delivery.(rationItem := OrElse(c.rationItem, delivery.rationItem));
    delivery := delivery.(quantity := OrNumber(c.quantity, delivery.quantity));
  }

  /**
   * updateDelivery. A quantity change looks up the godown stock by the updated godown and item
   * (`stockFound`); that stock must cover the new quantity once the old one is given back, and it is
   * rebalanced by the difference before the fields are updated.
   */
  method UpdateDelivery(deliveries: Deliveries, stocks: Stocks, user: User, id: string, c: DeliveryChanges,
                        stockFound: Option<string>)
    returns (r: Response<Delivery>)
    requires id in deliveries.docs ==>
               FindsGodownStock(stocks.docs, OrElse(c.godown, deliveries.docs[id].godown),
                                OrElse(c.rationItem, deliveries.docs[id].rationItem), stockFound)
    modifies deliveries, stocks
    ensures user.role !in DeliveryRoles ==> r == Err(403)
    ensures user.role in DeliveryRoles && id !in old(deliveries.docs) ==> r == Err(404)
    ensures user.role in DeliveryRoles && id in old(deliveries.docs) && ChangesQuantity(old(deliveries.docs)[id], c) &&
            (stockFound.None? ||
             old(stocks.docs)[stockFound.value].quantity + old(deliveries.docs)[id].quantity < c.quantity.value) ==>
              r == Err(400)
    ensures r.Err? ==> unchanged(deliveries, stocks)
    ensures r.Ok? ==>
              && user.role in DeliveryRoles && id in old(deliveries.docs)
              && var d := old(deliveries.docs)[id];
              && deliveries.docs == old(deliveries.docs)[id := Updated(d, c)]
              && r == Ok(200, Updated(d, c))
              && (ChangesQuantity(d, c) ==>
                    && stockFound.Some?
                    && old(stocks.docs)[stockFound.value].quantity + d.quantity >= c.quantity.value
                    && stocks.docs == Debit(old(stocks.docs), stockFound.value, c.quantity.value - d.quantity))
              && (!ChangesQuantity(d, c) ==> stocks.docs == old(stocks.docs))
  {
    if user.role !in DeliveryRoles {
      return Err(403);
    }
    if id !in deliveries.docs {
      return Err(404);
    }
    var delivery := deliveries.docs[id];
    if c.quantity.Some? && c.quantity.value != 0 && c.quantity.value != delivery.quantity {
      if stockFound.None? || stocks.docs[stockFound.value].quantity + delivery.quantity < c.quantity.value {
        return Err(400);
      }
      var stock := stocks.docs[stockFound.value];
      stock := stock.(quantity := stock.quantity + delivery.quantity);
      stock := stock.(quantity := stock.quantity - c.quantity.value);
      stocks.docs := stocks.docs[stockFound.value := stock];
      assert stocks.docs == Debit(old(stocks.docs), stockFound.value, c.quantity.value - delivery.quantity);
    }
    delivery := ApplyChanges(delivery, c);
    deliveries.docs := deliveries.docs[id := delivery];
    r := Ok(200, delivery);
  }

  /**
   * A quantity change moves exactly the difference between the godown ledger and the delivery: the
   * holdings of the (updated) item plus the delivery's quantity stay the same.
   */
  lemma RebalanceConserves(docs: map<string, Stock>, k: string, d: Delivery, c: DeliveryChanges)
    requires k in docs && ChangesQuantity(d, c) && docs[k].rationItem == Updated(d, c).rationItem
    ensures Holdings(Debit(docs, k, c.quantity.value - d.quantity), docs[k].rationItem) + Updated(d, c).quantity
            == Holdings(docs, docs[k].rationItem) + d.quantity
  {
    DebitHoldings(docs, k, c.quantity.value - d.quantity, docs[k].rationItem);
  }

  // ---------------------------------------------------------------------------------------------
  // completeDelivery
  // ---------------------------------------------------------------------------------------------

  /** Whether a delivery may be completed at `now`: not delivered yet, and its arrival time reached. */
  predicate Completable(d: Delivery, now: int) {
    d.status != Delivered && d.arrivalTime.Some? && now >= d.arrivalTime.value
  }

  /** The completed delivery: delivered, arriving at the given time or now. */
  function Completed(d: Delivery, arrivalTime: Option<int>, now: int): (r: Delivery)
    ensures r.status == Delivered
    ensures r.arrivalTime == Some(if arrivalTime.Some? && arrivalTime.value != 0 then arrivalTime.value else now)
    ensures r.(status := d.status, arrivalTime := d.arrivalTime) == d
  {
    d.(status := Delivered, arrivalTime := Some(if arrivalTime.Some? && arrivalTime.value != 0 then arrivalTime.value else now))
  }

  /** A completed delivery can never be completed again. */
  lemma CompletedIsFinal(d: Delivery, arrivalTime: Option<int>, now: int, later: int)
    ensures !Completable(Completed(d, arrivalTime, now), later)
  {
  }

  /**
   * completeDelivery: a delivery that is not yet delivered and whose arrival time has passed becomes
   * delivered, and its quantity is credited to the shop's stock of the item (`shopStockFound`, or a
   * new stock document `newStockId`).
   */
  method CompleteDelivery(deliveries: Deliveries, stocks: Stocks, user: User, id: string, arrivalTime: Option<int>,
                          now: int, shopStockFound: Option<string>, newStockId: string)
    returns (r: Response<Delivery>)
    requires id in deliveries.docs ==>
               FindsShopStock(stocks.docs, deliveries.docs[id].pdsShop, deliveries.docs[id].rationItem, shopStockFound)
    requires newStockId !in stocks.docs
    modifies deliveries, stocks
    ensures user.role !in DeliveryRoles ==> r == Err(403)
    ensures user.role in DeliveryRoles && id !in old(deliveries.docs) ==> r == Err(404)
    ensures user.role in DeliveryRoles && id in old(deliveries.docs) && !Completable(old(deliveries.docs)[id], now) ==>
              r == Err(400)
    ensures r.Err? ==> unchanged(deliveries, stocks)
    ensures r.Ok? ==>
              && user.role in DeliveryRoles && id in old(deliveries.docs)
              && var d := old(deliveries.docs)[id];
              && Completable(d, now)
              && deliveries.docs == old(deliveries.docs)[id := Completed(d, arrivalTime, now)]
              && stocks.docs == Credit(old(stocks.docs), shopStockFound, newStockId, d.pdsShop, d.rationItem, d.quantity)
              && r == Ok(200, Completed(d, arrivalTime, now))
  {
    if user.role !in DeliveryRoles {
      return Err(403);
    }
    if id !in deliveries.docs {
      return Err(404);
    }
    var delivery := deliveries.docs[id];
    if delivery.status == Delivered {
      return Err(400);
    }
    if delivery.arrivalTime.None? || now < delivery.arrivalTime.value {
      return Err(400);
    }
    delivery := delivery.(status := Delivered);
    delivery := delivery.(arrivalTime := Some(if arrivalTime.Some? && arrivalTime.value != 0 then arrivalTime.value else now));
    deliveries.docs := deliveries.docs[id := delivery];
    if shopStockFound.Some? {
      var pdsStock := stocks.docs[shopStockFound.value];
      stocks.docs := stocks.docs[shopStockFound.value := pdsStock.(quantity := pdsStock.quantity + delivery.quantity)];
    } else {
      stocks.docs := stocks.docs[newStockId := Stock(None, Some(delivery.pdsShop), delivery.rationItem, delivery.quantity)];
    }
    r := Ok(200, delivery);
  }

  /**
   * The ledger of a delivery's life: creating it takes its quantity out of the godown's stock and
   * completing it puts the same quantity into the shop's, so the item's total holdings are what they
   * were, and no other item's holdings move.
   */
  lemma CreateThenCompleteConserves(docs: map<string, Stock>, godownStock: string, quantity: int,
                                    shopFound: Option<string>, newId: string, shop: string, item: string, other: string)
    requires godownStock in docs && docs[godownStock].rationItem == item
    requires FindsShopStock(Debit(docs, godownStock, quantity), shop, item, shopFound)
    requires newId !in docs
    ensures var after := Credit(Debit(docs, godownStock, quantity), shopFound, newId, shop, item, quantity);
            && Holdings(after, item) == Holdings(docs, item)
            && (other != item ==> Holdings(after, other) == Holdings(docs, other))
  {
    DebitHoldings(docs, godownStock, quantity, item);
    DebitHoldings(docs, godownStock, quantity, other);
    CreditHoldings(Debit(docs, godownStock, quantity), shopFound, newId, shop, item, quantity, other);
  }
}
