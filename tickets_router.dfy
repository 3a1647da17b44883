/** The purchase route of src/routes/tickets.router.js. It walks the requested items in order,
    checks and decrements stock, sums price times quantity and saves a `pending` ticket. Stock
    decrements are saved one item at a time, so an item that fails leaves the decrements of the
    items before it in place. */
module TicketsRouter {
  import opened Wrappers
  import opened ProductModel
  import TicketModel

  /** One requested item of the body's `products`. */
  datatype PurchaseItem = PurchaseItem(productId: ProductId, quantity: int)

  /** Where the loop stands after some items: the product collection, the running total, the
      purchased lines, and the status of an early return once one has happened. */
  datatype Progress = Progress(
    store: map<ProductId, Product>,
    total: int,
    lines: seq<TicketModel.TicketLine>,
    failure: Option<int>)

  /** One iteration: 404 for an unknown product, 400 for too little stock, otherwise decrement the
      stock, add price times quantity to the total and record the line. */
  function Step(p: Progress, item: PurchaseItem): Progress {
    if p.failure.Some? then p
    else if item.productId !in p.store then p.(failure := Some(404))
    else
      var product := p.store[item.productId];
      if product.stock < item.quantity then p.(failure := Some(400))
      else Progress(
        p.store[item.productId := product.(stock := product.stock - item.quantity)],
        p.total + product.price * item.quantity,
        p.lines + [TicketModel.TicketLine(item.productId, item.quantity)],
        None)
  }

  /** The loop over `items`, from the collection as it was when the request arrived. */
  function Run(store: map<ProductId, Product>, items: seq<PurchaseItem>): Progress
    decreases |items|
  {
    if items == [] then Progress(store, 0, [], None)
    else Step(Run(store, items[..|items| - 1]), items[|items| - 1])
  }

  /** Total quantity requested for `id` over all items. */
  function Requested(items: seq<PurchaseItem>, id: ProductId): int
    decreases |items|
  {
    if items == [] then 0
    else
      var last := items[|items| - 1];
      Requested(items[..|items| - 1], id) + (if last.productId == id then last.quantity else 0)
  }

  /** Σ price × quantity over the items, at the prices of `store`. */
  function Amount(store: map<ProductId, Product>, items: seq<PurchaseItem>): int
    requires forall i :: 0 <= i < |items| ==> items[i].productId in store
    decreases |items|
  {
    if items == [] then 0
    else
      var last := items[|items| - 1];
      Amount(store, items[..|items| - 1]) + store[last.productId].price * last.quantity
  }

  /** Once an early return has happened, later items change nothing. */
  lemma {:induction false} RunFailureSticks(store: map<ProductId, Product>, items: seq<PurchaseItem>, k: nat)
    requires k <= |items| && Run(store, items[..k]).failure.Some?
    ensures Run(store, items) == Run(store, items[..k])
    decreases |items|
  {
    if k == |items| {
      assert items[..k] == items;
    } else {
      var n := |items|;
      assert items[..n - 1][..k] == items[..k];
      RunFailureSticks(store, items[..n - 1], k);
    }
  }

  /** The loop after item `i` is one more iteration of the loop before it. */
  lemma RunPrefix(store: map<ProductId, Product>, items: seq<PurchaseItem>, i: nat)
    requires i < |items|
    ensures Run(store, items[..i + 1]) == Step(Run(store, items[..i]), items[i])
  {
    assert items[..i + 1][..i] == items[..i];
  }

  /** Unfolds the last iteration of a successful run. */
  lemma LastStep(store: map<ProductId, Product>, items: seq<PurchaseItem>)
    requires items != [] && Run(store, items).failure.None?
    ensures
      var w := Run(store, items[..|items| - 1]);
      var item := items[|items| - 1];
      && w.failure.None?
      && item.productId in w.store
      && w.store[item.productId].stock >= item.quantity
      && Run(store, items) == Progress(
           w.store[item.productId := w.store[item.productId].(stock := w.store[item.productId].stock - item.quantity)],
           w.total + w.store[item.productId].price * item.quantity,
           w.lines + [TicketModel.TicketLine(item.productId, item.quantity)],
           None)
  {
  }

  /** The loop never adds or drops a product. */
  lemma {:induction false} RunKeepsKeys(store: map<ProductId, Product>, items: seq<PurchaseItem>)
    ensures Run(store, items).store.Keys == store.Keys
    decreases |items|
  {
    if items != [] {
      RunKeepsKeys(store, items[..|items| - 1]);
    }
  }

  /** On success the ticket lines repeat the requested items, in request order. */
  lemma {:induction false} RunLines(store: map<ProductId, Product>, items: seq<PurchaseItem>)
    requires Run(store, items).failure.None?
    ensures |Run(store, items).lines| == |items|
    ensures forall i :: 0 <= i < |items| ==>
      Run(store, items).lines[i] == TicketModel.TicketLine(items[i].productId, items[i].quantity)
    decreases |items|
  {
    if items != [] {
      var init := items[..|items| - 1];
      LastStep(store, items);
      RunLines(store, init);
    }
  }

  /** On success every product's stock dropped by exactly the quantity requested for it, and
      nothing else about any product changed. */
  lemma {:induction false} RunStock(store: map<ProductId, Product>, items: seq<PurchaseItem>)
    requires Run(store, items).failure.None?
    ensures forall id :: id in store ==>
      id in Run(store, items).store &&
      Run(store, items).store[id] == store[id].(stock := store[id].stock - Requested(items, id))
    decreases |items|
  {
    if items != [] {
      var init := items[..|items| - 1];
      LastStep(store, items);
      RunStock(store, init);
    }
  }

  /** On success every requested product exists and the total is Σ price × quantity, at the
      prices the products had (a purchase never changes a price). */
  lemma {:induction false} RunTotal(store: map<ProductId, Product>, items: seq<PurchaseItem>)
    requires Run(store, items).failure.None?
    ensures forall i :: 0 <= i < |items| ==> items[i].productId in store
    ensures Run(store, items).total == Amount(store, items)
    decreases |items|
  {
    if items != [] {
      var n := |items|;
      var init := items[..n - 1];
      LastStep(store, items);
      RunTotal(store, init);
      RunStock(store, init);
      RunKeepsKeys(store, init);
      assert forall i :: 0 <= i < n - 1 ==> items[i] == init[i];
    }
  }

  /** The loop never drives a stock below zero: the check precedes the decrement. */
  lemma {:induction false} RunKeepsStoreValid(store: map<ProductId, Product>, items: seq<PurchaseItem>)
    requires StoreValid(store)
    ensures StoreValid(Run(store, items).store)
    decreases |items|
  {
    if items != [] {
      var n := |items|;
      RunKeepsStoreValid(store, items[..n - 1]);
      var w := Run(store, items[..n - 1]);
      var item := items[n - 1];
      if w.failure.None? && item.productId in w.store && w.store[item.productId].stock >= item.quantity {
        RestockKeepsStoreValid(w.store, item.productId, w.store[item.productId].stock - item.quantity);
      }
    }
  }

  /** Item `k` is where the run failed: the items before it went through, their decrements are
      what the collection holds, and item `k` was unknown (404) or short of stock (400). */
  predicate FailedAt(store: map<ProductId, Product>, items: seq<PurchaseItem>, k: nat)
    requires k < |items|
  {
    var before := Run(store, items[..k]);
    var after := Run(store, items);
    && before.failure.None?
    && after.store == before.store
    && (items[k].productId !in before.store ==> after.failure == Some(404))
    && (items[k].productId in before.store ==>
          before.store[items[k].productId].stock < items[k].quantity && after.failure == Some(400))
  }

  /** A failed run failed at some item. */
  lemma {:induction false} RunFailsAt(store: map<ProductId, Product>, items: seq<PurchaseItem>)
    requires Run(store, items).failure.Some?
    ensures exists k :: 0 <= k < |items| && FailedAt(store, items, k)
    decreases |items|
  {
    var n := |items|;
    var init := items[..n - 1];
    if Run(store, init).failure.Some? {
      RunFailsAt(store, init);
      var k :| 0 <= k < |init| && FailedAt(store, init, k);
      assert init[..k] == items[..k] && init[k] == items[k];
      assert Run(store, items) == Run(store, init);
      assert FailedAt(store, items, k);
    } else {
      assert items[..n - 1] == init;
      assert FailedAt(store, items, n - 1);
    }
  }

  /** A product listed twice is checked the second time against the stock the first item left. */
  lemma SameProductTwice(store: map<ProductId, Product>, pid: ProductId, q1: int, q2: int)
    requires pid in store
    ensures Run(store, [PurchaseItem(pid, q1), PurchaseItem(pid, q2)]).failure.None?
        <==> q1 <= store[pid].stock && q2 <= store[pid].stock - q1
  {
    var items := [PurchaseItem(pid, q1), PurchaseItem(pid, q2)];
    assert items[..1] == [PurchaseItem(pid, q1)];
    assert items[..1][..0] == [];
    var first := Run(store, items[..1]);
    assert Run(store, items[..1][..0]) == Progress(store, 0, [], None);
    assert first == Step(Progress(store, 0, [], None), items[0]);
    assert Run(store, items) == Step(first, items[1]);
  }

  /** The product collection and the saved tickets, both held valid. */
  class Checkout {
    var products: map<ProductId, Product>
    var tickets: seq<TicketModel.Ticket>

    ghost predicate Valid()
      reads this
    {
      StoreValid(products) && forall i :: 0 <= i < |tickets| ==> TicketModel.TicketValid(tickets[i])
    }

    constructor (products0: map<ProductId, Product>)
      requires StoreValid(products0)
      ensures Valid() && products == products0 && tickets == []
    {
      products := products0;
      tickets := [];
    }

    /** `POST /purchase`. `items` is the body's `products`, absent when the body has none. */
    method Purchase(userId: Option<TicketModel.UserId>, items: Option<seq<PurchaseItem>>)
      returns (status: int, ticket: Option<TicketModel.Ticket>)
      requires Valid()
      modifies this
      ensures Valid()
      ensures items.None? || items.value == [] ==>
        status == 400 && ticket == None && products == old(products) && tickets == old(tickets)
      ensures items.Some? && items.value != [] ==>
        var run := Run(old(products), items.value);
        && products == run.store
        && (run.failure.Some? ==> status == run.failure.value && ticket == None && tickets == old(tickets))
        && (run.failure.None? ==>
              var t := TicketModel.NewTicket(userId, run.lines, Some(run.total), Some("pending"));
              && (TicketModel.TicketValid(t) ==> status == 201 && ticket == Some(t) && tickets == old(tickets) + [t])
              && (!TicketModel.TicketValid(t) ==> status == 500 && ticket == None && tickets == old(tickets)))
    {
      ticket := None;
      if items.None? || items.value == [] {
        return 400, None;
      }
      var xs := items.value;
      var totalAmount := 0;
      var purchased: seq<TicketModel.TicketLine> := [];
      var i := 0;
      while i < |xs|
        invariant 0 <= i <= |xs|
        invariant Run(old(products), xs[..i]) == Progress(products, totalAmount, purchased, None)
        invariant tickets == old(tickets)
      {
        var item := xs[i];
        RunPrefix(old(products), xs, i);
        if item.productId !in products {
          RunFailureSticks(old(products), xs, i + 1);
          RunKeepsStoreValid(old(products), xs);
          return 404, None;
        }
        var product := products[item.productId];
        if product.stock < item.quantity {
          RunFailureSticks(old(products), xs, i + 1);
          RunKeepsStoreValid(old(products), xs);
          return 400, None;
        }
        products := products[item.productId := product.(stock := product.stock - item.quantity)];
        totalAmount := totalAmount + product.price * item.quantity;
        purchased := purchased + [TicketModel.TicketLine(item.productId, item.quantity)];
        i := i + 1;
      }
      assert xs[..i] == xs;
      // Every save of a decremented product passed: stock stays at least 0.
      RunKeepsStoreValid(old(products), xs);
      var t := TicketModel.NewTicket(userId, purchased, Some(totalAmount), Some("pending"));
      if TicketModel.TicketValid(t) {
        tickets := tickets + [t];
        status, ticket := 201, Some(t);
      } else {
        status := 500;
      }
    }
  }
}
