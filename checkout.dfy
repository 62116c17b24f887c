/**
 * The checkout engine: one database transaction that prices every basket
 * line, decrements stock, inserts the transaction row and its detail rows,
 * and commits; any error rolls every effect back.
 *
 * The store is an object whose fields are the three tables and the serial
 * that numbers transactions. Errors of the database driver cannot be seen
 * from here, so a `Fault` parameter names the one call (if any) that
 * reports an error; every other call succeeds.
 */
module Checkout {
  import opened Outcomes
  import opened Models

  datatype CheckoutError =
    | ProductNotFound(productId: int)  // "product id N not found"
    | StorageError                     // any error reported by the database driver

  /** The database call that reports an error during one checkout, if any. */
  datatype Fault =
    | NoFault
    | BeginFails
    | LookupFails(item: nat)       // the product query of basket line `item`
    | UpdateFails(item: nat)       // the stock update of basket line `item`
    | InsertTransactionFails
    | InsertDetailFails(line: nat) // the insert of detail row `line`
    | CommitFails

  /** Number of leading basket lines whose product exists; the first missing one stops the checkout. */
  function FirstMissing(products: map<int, Product>, items: seq<CheckoutItem>): (m: nat)
    ensures m <= |items|
    ensures forall k :: 0 <= k < m ==> items[k].productId in products
    ensures m < |items| ==> items[m].productId !in products
  {
    if |items| == 0 || items[0].productId !in products then 0
    else 1 + FirstMissing(products, items[1..])
  }

  /** The fault is reached while the basket is walked, given that the first `m` of `n` lines resolve. */
  predicate FailsInBasket(fault: Fault, m: nat, n: nat)
  {
    match fault
    case LookupFails(k) => k <= m && k < n
    case UpdateFails(k) => k < m
    case _ => false
  }

  /** The fault is reached after a walk of all `n` lines. */
  predicate FailsAfterBasket(fault: Fault, n: nat)
  {
    match fault
    case InsertTransactionFails => true
    case InsertDetailFails(k) => k < n
    case CommitFails => true
    case _ => false
  }

  /** The fault is reached at all during a checkout in which the first `m` of `n` lines resolve. */
  predicate Fails(fault: Fault, m: nat, n: nat)
  {
    fault == BeginFails || FailsInBasket(fault, m, n) || (m == n && FailsAfterBasket(fault, n))
  }

  /** Total quantity the basket takes of product `id`; repeated lines accumulate. */
  function QuantityOf(items: seq<CheckoutItem>, id: int): int
  {
    if |items| == 0 then 0
    else
      var last := items[|items| - 1];
      QuantityOf(items[..|items| - 1], id) + (if last.productId == id then last.quantity else 0)
  }

  /** The catalog after every line's stock decrement, with no lower bound on stock. */
  function Decremented(products: map<int, Product>, items: seq<CheckoutItem>): (after: map<int, Product>)
    ensures after.Keys == products.Keys
  {
    map id | id in products :: products[id].(stock := products[id].stock - QuantityOf(items, id))
  }

  /** The detail line recorded for one basket line, priced at the product's current price. */
  function LineFor(products: map<int, Product>, item: CheckoutItem, txId: int): TransactionDetail
    requires item.productId in products
  {
    var p := products[item.productId];
    TransactionDetail(txId, item.productId, p.name, item.quantity, p.price * item.quantity)
  }

  /** Sum of the subtotals of the lines. */
  function SumSubtotals(lines: seq<TransactionDetail>): int
  {
    if |lines| == 0 then 0
    else SumSubtotals(lines[..|lines| - 1]) + lines[|lines| - 1].subtotal
  }

  /**
   * `lines` and `total` are what a checkout of `items` against `products`
   * reports under transaction id `txId`: one line per basket line, in order,
   * and a total that is the sum of the lines' subtotals.
   */
  ghost predicate IsReceipt(
    products: map<int, Product>, items: seq<CheckoutItem>, txId: int,
    lines: seq<TransactionDetail>, total: int)
  {
    && |lines| == |items|
    && (forall k :: 0 <= k < |items| ==>
          items[k].productId in products && lines[k] == LineFor(products, items[k], txId))
    && total == SumSubtotals(lines)
  }

  /** The row persisted for a detail line: everything except the product name. */
  function Persisted(line: TransactionDetail): DetailRow
  {
    DetailRow(line.transactionId, line.productId, line.quantity, line.subtotal)
  }

  function PersistedAll(lines: seq<TransactionDetail>): (rows: seq<DetailRow>)
  {
    seq(|lines|, k requires 0 <= k < |lines| => Persisted(lines[k]))
  }

  /** Sums of subtotals agree when the subtotals agree line by line. */
  lemma {:induction false} SumSubtotalsAgree(a: seq<TransactionDetail>, b: seq<TransactionDetail>)
    requires |a| == |b|
    requires forall k :: 0 <= k < |a| ==> a[k].subtotal == b[k].subtotal
    ensures SumSubtotals(a) == SumSubtotals(b)
  {
    if |a| > 0 {
      SumSubtotalsAgree(a[..|a| - 1], b[..|b| - 1]);
    }
  }

  /** A product that no basket line names is taken zero times. */
  lemma {:induction false} QuantityOfAbsent(items: seq<CheckoutItem>, id: int)
    requires forall k :: 0 <= k < |items| ==> items[k].productId != id
    ensures QuantityOf(items, id) == 0
  {
    if |items| > 0 {
      QuantityOfAbsent(items[..|items| - 1], id);
    }
  }

  /** A checkout leaves every product that its basket does not name exactly as it was. */
  lemma UntouchedProductUnchanged(products: map<int, Product>, items: seq<CheckoutItem>, id: int)
    requires id in products
    requires forall k :: 0 <= k < |items| ==> items[k].productId != id
    ensures Decremented(products, items)[id] == products[id]
  {
    QuantityOfAbsent(items, id);
  }

  /** The quantity taken by two baskets is the sum of the quantities taken by each. */
  lemma {:induction false} QuantityOfConcat(a: seq<CheckoutItem>, b: seq<CheckoutItem>, id: int)
    ensures QuantityOf(a + b, id) == QuantityOf(a, id) + QuantityOf(b, id)
    decreases |b|
  {
    if |b| == 0 {
      assert a + b == a;
    } else {
      assert (a + b)[..|a + b| - 1] == a + b[..|b| - 1];
      QuantityOfConcat(a, b[..|b| - 1], id);
    }
  }

  /** Two successive checkouts decrement stock as one checkout of both baskets would. */
  lemma SuccessiveDecrementsCompose(products: map<int, Product>, a: seq<CheckoutItem>, b: seq<CheckoutItem>)
    ensures Decremented(Decremented(products, a), b) == Decremented(products, a + b)
  {
    forall id | id in products
      ensures Decremented(Decremented(products, a), b)[id] == Decremented(products, a + b)[id]
    {
      QuantityOfConcat(a, b, id);
    }
  }

  /** Decrements change stock only: names and prices are those of the catalog. */
  lemma DecrementKeepsPrice(products: map<int, Product>, items: seq<CheckoutItem>, id: int)
    requires id in products
    ensures Decremented(products, items)[id].name == products[id].name
    ensures Decremented(products, items)[id].price == products[id].price
  {
  }

  /** Decrementing for one more basket line changes only that line's product. */
  lemma DecrementStep(products: map<int, Product>, items: seq<CheckoutItem>, i: nat)
    requires i < |items|
    requires items[i].productId in products
    ensures var before := Decremented(products, items[..i]);
      var id := items[i].productId;
      Decremented(products, items[..i + 1])
        == before[id := before[id].(stock := before[id].stock - items[i].quantity)]
  {
    assert items[..i + 1][..i] == items[..i];
  }

  /** What the first loop of a checkout leaves behind: the working catalog, the lines and the running total. */
  datatype Basket = Basket(products: map<int, Product>, lines: seq<TransactionDetail>, total: int)

  /**
   * The walk over the basket, on the transaction's working copy of the
   * catalog: look up each product, price the line, add it to the total,
   * decrement stock and record the line (its transaction id still zero).
   */
  method ApplyBasket(products: map<int, Product>, items: seq<CheckoutItem>, fault: Fault)
    returns (r: Result<Basket, CheckoutError>)
    ensures var m := FirstMissing(products, items);
      r.Ok? <==> m == |items| && !FailsInBasket(fault, m, |items|)
    ensures var m := FirstMissing(products, items);
      r.Err? ==> r.error == if FailsInBasket(fault, m, |items|) then StorageError
                            else ProductNotFound(items[m].productId)
    ensures r.Ok? ==> r.value.products == Decremented(products, items)
    ensures r.Ok? ==> IsReceipt(products, items, 0, r.value.lines, r.value.total)
  {
    var working := products;
    var lines: seq<TransactionDetail> := [];
    var total := 0;
    for i := 0 to |items|
      invariant forall k :: 0 <= k < i ==> items[k].productId in products
      invariant forall k :: 0 <= k < i ==> fault != LookupFails(k) && fault != UpdateFails(k)
      invariant working == Decremented(products, items[..i])
      invariant |lines| == i
      invariant forall k :: 0 <= k < i ==> lines[k] == LineFor(products, items[k], 0)
      invariant total == SumSubtotals(lines)
    {
      var item := items[i];
      if fault == LookupFails(i) {
        assert FailsInBasket(fault, FirstMissing(products, items), |items|);
        return Err(StorageError);
      }
      if item.productId !in working {
        assert FirstMissing(products, items) == i;
        return Err(ProductNotFound(item.productId));
      }
      var p := working[item.productId];
      DecrementKeepsPrice(products, items[..i], item.productId);
      var subtotal := p.price * item.quantity;
      total := total + subtotal;
      if fault == UpdateFails(i) {
        assert FailsInBasket(fault, FirstMissing(products, items), |items|);
        return Err(StorageError);
      }
      DecrementStep(products, items, i);
      working := working[item.productId := p.(stock := p.stock - item.quantity)];
      var line := TransactionDetail(0, item.productId, p.name, item.quantity, subtotal);
      assert (lines + [line])[..i] == lines;
      lines := lines + [line];
    }
    assert items[..|items|] == items;
    r := Ok(Basket(working, lines, total));
  }

  /**
   * The second loop of a checkout: stamp the new transaction id on every
   * line and insert its row, stopping at the first insert that fails.
   */
  method InsertDetails(lines: seq<TransactionDetail>, id: int, fault: Fault)
    returns (r: Result<(seq<TransactionDetail>, seq<DetailRow>), CheckoutError>)
    ensures r.Ok? <==> !(fault.InsertDetailFails? && fault.line < |lines|)
    ensures r.Err? ==> r.error == StorageError
    ensures r.Ok? ==> |r.value.0| == |lines|
    ensures r.Ok? ==> forall k :: 0 <= k < |lines| ==> r.value.0[k] == lines[k].(transactionId := id)
    ensures r.Ok? ==> r.value.1 == PersistedAll(r.value.0)
  {
    var stamped := lines;
    var rows: seq<DetailRow> := [];
    for i := 0 to |lines|
      invariant |stamped| == |lines|
      invariant forall k :: 0 <= k < i ==> stamped[k] == lines[k].(transactionId := id)
      invariant forall k :: i <= k < |lines| ==> stamped[k] == lines[k]
      invariant rows == PersistedAll(stamped[..i])
      invariant forall k :: 0 <= k < i ==> fault != InsertDetailFails(k)
    {
      stamped := stamped[i := stamped[i].(transactionId := id)];
      if fault == InsertDetailFails(i) {
        return Err(StorageError);
      }
      rows := rows + [Persisted(stamped[i])];
    }
    assert stamped[..|stamped|] == stamped;
    r := Ok((stamped, rows));
  }

  class Store {
    var products: map<int, Product>
    var transactions: seq<TransactionRow>
    var details: seq<DetailRow>
    /** The next value of the transactions id serial. */
    var nextId: int

    /** Every transaction id was drawn from the serial before its current value. */
    ghost predicate Valid()
      reads this
    {
      forall k :: 0 <= k < |transactions| ==> transactions[k].id < nextId
    }

    constructor (catalog: map<int, Product>)
      ensures Valid()
      ensures products == catalog && transactions == [] && details == [] && nextId == 1
    {
      products := catalog;
      transactions := [];
      details := [];
      nextId := 1;
    }

    /**
     * Checkout of a basket on day `today`. On success the stock decrements,
     * the transaction row and its detail rows are committed together and the
     * transaction is returned with its fresh id stamped on every line; on
     * any error the tables are exactly as before.
     */
    method Checkout(items: seq<CheckoutItem>, today: int, fault: Fault)
      returns (r: Result<Transaction, CheckoutError>)
      requires Valid()
      modifies this
      ensures Valid()
      ensures var m := FirstMissing(old(products), items);
        r.Ok? <==> m == |items| && !Fails(fault, m, |items|)
      ensures var m := FirstMissing(old(products), items);
        r.Err? ==> r.error == if Fails(fault, m, |items|) then StorageError
                              else ProductNotFound(items[m].productId)
      ensures r.Err? ==>
        && products == old(products)
        && transactions == old(transactions)
        && details == old(details)
        && nextId == old(nextId)
      ensures r.Ok? ==>
        && (forall k :: 0 <= k < |old(transactions)| ==> old(transactions)[k].id != r.value.id)
        && IsReceipt(old(products), items, r.value.id, r.value.details, r.value.totalAmount)
        && products == Decremented(old(products), items)
        && transactions == old(transactions) + [TransactionRow(r.value.id, r.value.totalAmount, today)]
        && details == old(details) + PersistedAll(r.value.details)
    {
      if fault == BeginFails {
        return Err(StorageError);
      }
      var walked := ApplyBasket(products, items, fault);
      if walked.Err? {
        return Err(walked.error);
      }
      var basket := walked.value;
      if fault == InsertTransactionFails {
        return Err(StorageError);
      }
      var id := nextId;
      var inserted := InsertDetails(basket.lines, id, fault);
      if inserted.Err? {
        return Err(StorageError);
      }
      var (lines, rows) := inserted.value;
      if fault == CommitFails {
        return Err(StorageError);
      }
      SumSubtotalsAgree(basket.lines, lines);
      products := basket.products;
      transactions := transactions + [TransactionRow(id, basket.total, today)];
      details := details + rows;
      nextId := nextId + 1;
      r := Ok(Transaction(id, basket.total, lines));
    }
  }

  /**
   * Two products priced 3500 and 4000 with stock 20 and 15: a basket of two
   * of the first and one of the second costs 11000 and leaves stock 18 and
   * 14; a basket that also names product 99 fails and changes nothing; and
   * a basket larger than the stock drives it below zero.
   */
  method CheckoutExample()
  {
    var store := new Store(map[1 := Product("Kopi", 3500, 20), 2 := Product("Teh", 4000, 15)]);
    var basket := [CheckoutItem(1, 2), CheckoutItem(2, 1)];
    assert FirstMissing(store.products, basket) == 2;
    var sale := store.Checkout(basket, 0, NoFault);
    assert sale.Ok?;
    var lines := sale.value.details;
    assert lines[0].subtotal == 7000 && lines[1].subtotal == 4000;
    assert SumSubtotals(lines[..1]) == 7000 by {
      assert lines[..1][..0] == [];
    }
    assert sale.value.totalAmount == 11000;
    assert QuantityOf(basket, 1) == 2 && QuantityOf(basket, 2) == 1 by {
      assert basket[..1][..0] == [] && basket[..1] == [basket[0]];
    }
    assert store.products[1].stock == 18 && store.products[2].stock == 14;

    var unknown := [CheckoutItem(1, 2), CheckoutItem(99, 1)];
    assert FirstMissing(store.products, unknown) == 1;
    var failed := store.Checkout(unknown, 0, NoFault);
    assert failed == Err(ProductNotFound(99));
    assert store.products[1].stock == 18 && |store.transactions| == 1;

    var oversold := [CheckoutItem(2, 20)];
    assert FirstMissing(store.products, oversold) == 1;
    var negative := store.Checkout(oversold, 0, NoFault);
    assert negative.Ok?;
    assert QuantityOf(oversold, 2) == 20 by {
      assert oversold[..0] == [];
    }
    assert store.products[2].stock == -6;
  }
}
