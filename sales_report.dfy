/**
 * The two sales reports, as functions of the stored rows. Each report is the
 * same pair of queries under a different date condition: revenue and number
 * of transactions over the transactions whose creation day matches, and the
 * best seller over the detail rows joined to those transactions and to the
 * products table, grouped by product. "Today" is a parameter.
 */
module SalesReport {
  import opened Outcomes
  import opened Models

  /** The date condition of a report. */
  datatype Window =
    | Today(day: int)                // DATE(created_at) = CURRENT_DATE
    | Between(start: int, end: int)  // start <= DATE(created_at) <= end

  predicate Matches(w: Window, day: int)
  {
    match w
    case Today(t) => day == t
    case Between(s, e) => s <= day <= e
  }

  /** The transactions the WHERE clause selects, in table order. */
  function InWindow(txs: seq<TransactionRow>, w: Window): (sel: seq<TransactionRow>)
    ensures forall t :: multiset(sel)[t] == if Matches(w, t.createdDay) then multiset(txs)[t] else 0
  {
    if |txs| == 0 then []
    else
      var last := txs[|txs| - 1];
      assert txs == txs[..|txs| - 1] + [last];
      InWindow(txs[..|txs| - 1], w) + (if Matches(w, last.createdDay) then [last] else [])
  }

  /** SUM(total_amount), with an empty sum read as 0 (the COALESCE). */
  function Revenue(sel: seq<TransactionRow>): int
  {
    if |sel| == 0 then 0
    else Revenue(sel[..|sel| - 1]) + sel[|sel| - 1].totalAmount
  }

  /** Number of selected transactions that a detail row's transaction id joins to. */
  function JoinCount(sel: seq<TransactionRow>, txId: int): nat
  {
    if |sel| == 0 then 0
    else JoinCount(sel[..|sel| - 1], txId) + (if sel[|sel| - 1].id == txId then 1 else 0)
  }

  /** The detail row takes part in the joined rows of the best-seller query. */
  predicate Joined(sel: seq<TransactionRow>, products: map<int, Product>, d: DetailRow)
  {
    d.productId in products && JoinCount(sel, d.transactionId) > 0
  }

  /** SUM(quantity) of the joined rows of product `id`: the group's quantity sold. */
  function QtySold(sel: seq<TransactionRow>, details: seq<DetailRow>, products: map<int, Product>, id: int): int
  {
    if |details| == 0 then 0
    else
      var d := details[|details| - 1];
      QtySold(sel, details[..|details| - 1], products, id)
        + (if d.productId == id && id in products then d.quantity * JoinCount(sel, d.transactionId) else 0)
  }

  /** The product ids of the joined rows, one per row: the groups of the query. */
  function SoldIds(sel: seq<TransactionRow>, details: seq<DetailRow>, products: map<int, Product>): (ids: seq<int>)
    ensures forall id :: id in ids ==> id in products
    ensures forall i :: 0 <= i < |details| && Joined(sel, products, details[i]) ==> details[i].productId in ids
    ensures forall id :: id in ids ==>
      exists i :: 0 <= i < |details| && Joined(sel, products, details[i]) && details[i].productId == id
  {
    if |details| == 0 then []
    else
      var front := details[..|details| - 1];
      var d := details[|details| - 1];
      var ids := SoldIds(sel, front, products);
      assert forall i :: 0 <= i < |front| ==> front[i] == details[i];
      ids + (if Joined(sel, products, d) then [d.productId] else [])
  }

  /** A product of `ids` with the largest quantity sold (ORDER BY qty_terjual DESC LIMIT 1). */
  function TopSeller(ids: seq<int>, sel: seq<TransactionRow>, details: seq<DetailRow>, products: map<int, Product>): (top: int)
    requires |ids| > 0
    ensures top in ids
    ensures forall id :: id in ids ==> QtySold(sel, details, products, id) <= QtySold(sel, details, products, top)
  {
    if |ids| == 1 then ids[0]
    else
      var rest := TopSeller(ids[1..], sel, details, products);
      assert forall id :: id in ids ==> id == ids[0] || id in ids[1..];
      if QtySold(sel, details, products, ids[0]) >= QtySold(sel, details, products, rest) then ids[0] else rest
  }

  /**
   * The summary of a window: revenue and count of its transactions, and the
   * best seller, absent exactly when no detail row joins a transaction of
   * the window and an existing product.
   */
  function Summarize(txs: seq<TransactionRow>, details: seq<DetailRow>, products: map<int, Product>, w: Window)
    : (s: SalesSummary)
    ensures var sel := InWindow(txs, w);
      s.bestSeller.None? <==> forall i :: 0 <= i < |details| ==> !Joined(sel, products, details[i])
    ensures var sel := InWindow(txs, w);
      s.bestSeller.Some? ==>
        exists id :: id in products
          && s.bestSeller.value == BestSeller(products[id].name, QtySold(sel, details, products, id))
          && (exists i :: 0 <= i < |details| && Joined(sel, products, details[i]) && details[i].productId == id)
    ensures var sel := InWindow(txs, w);
      s.bestSeller.Some? ==>
        forall i :: 0 <= i < |details| && Joined(sel, products, details[i]) ==>
          QtySold(sel, details, products, details[i].productId) <= s.bestSeller.value.qtySold
  {
    var sel := InWindow(txs, w);
    var sold := SoldIds(sel, details, products);
    var best :=
      if |sold| == 0 then None
      else
        var id := TopSeller(sold, sel, details, products);
        Some(BestSeller(products[id].name, QtySold(sel, details, products, id)));
    SalesSummary(Revenue(sel), |sel|, best)
  }

  /** Revenue summed over every transaction, counting those outside the window as zero. */
  function MatchingRevenue(txs: seq<TransactionRow>, w: Window): int
  {
    if |txs| == 0 then 0
    else
      var last := txs[|txs| - 1];
      MatchingRevenue(txs[..|txs| - 1], w) + (if Matches(w, last.createdDay) then last.totalAmount else 0)
  }

  /** Number of transactions whose creation day matches the window. */
  function MatchingCount(txs: seq<TransactionRow>, w: Window): nat
  {
    if |txs| == 0 then 0
    else MatchingCount(txs[..|txs| - 1], w) + (if Matches(w, txs[|txs| - 1].createdDay) then 1 else 0)
  }

  lemma {:induction false} RevenueAppend(sel: seq<TransactionRow>, more: seq<TransactionRow>)
    ensures Revenue(sel + more) == Revenue(sel) + Revenue(more)
    decreases |more|
  {
    if |more| == 0 {
      assert sel + more == sel;
    } else {
      assert (sel + more)[..|sel + more| - 1] == sel + more[..|more| - 1];
      RevenueAppend(sel, more[..|more| - 1]);
    }
  }

  /** The selected transactions carry the revenue and the count of those whose day matches. */
  lemma {:induction false} SelectionTotals(txs: seq<TransactionRow>, w: Window)
    ensures Revenue(InWindow(txs, w)) == MatchingRevenue(txs, w)
    ensures |InWindow(txs, w)| == MatchingCount(txs, w)
    decreases |txs|
  {
    if |txs| > 0 {
      var front := txs[..|txs| - 1];
      var last := txs[|txs| - 1];
      SelectionTotals(front, w);
      RevenueAppend(InWindow(front, w), if Matches(w, last.createdDay) then [last] else []);
    }
  }

  /** The report's revenue and count are those of the transactions whose day matches. */
  lemma SummaryTotals(txs: seq<TransactionRow>, details: seq<DetailRow>, products: map<int, Product>, w: Window)
    ensures Summarize(txs, details, products, w).totalRevenue == MatchingRevenue(txs, w)
    ensures Summarize(txs, details, products, w).totalTransactions == MatchingCount(txs, w)
  {
    SelectionTotals(txs, w);
  }

  /** A committed sale of day `today` adds its total to today's revenue and one to today's count. */
  lemma CommittedSaleCounted(txs: seq<TransactionRow>, details: seq<DetailRow>, products: map<int, Product>,
                             sale: TransactionRow, moreDetails: seq<DetailRow>, after: map<int, Product>)
    ensures var before := Summarize(txs, details, products, Today(sale.createdDay));
      var now := Summarize(txs + [sale], details + moreDetails, after, Today(sale.createdDay));
      now.totalRevenue == before.totalRevenue + sale.totalAmount
      && now.totalTransactions == before.totalTransactions + 1
  {
    var w := Today(sale.createdDay);
    SummaryTotals(txs, details, products, w);
    SummaryTotals(txs + [sale], details + moreDetails, after, w);
    assert (txs + [sale])[..|txs|] == txs;
  }

  /** Two windows that accept the same days select the same transactions. */
  lemma {:induction false} SameDaysSameSelection(txs: seq<TransactionRow>, w1: Window, w2: Window)
    requires forall day :: Matches(w1, day) <==> Matches(w2, day)
    ensures InWindow(txs, w1) == InWindow(txs, w2)
  {
    if |txs| > 0 {
      SameDaysSameSelection(txs[..|txs| - 1], w1, w2);
    }
  }

  /** The today report is the range report whose start and end are both today. */
  lemma TodayIsOneDayRange(txs: seq<TransactionRow>, details: seq<DetailRow>, products: map<int, Product>, today: int)
    ensures Summarize(txs, details, products, Today(today)) == Summarize(txs, details, products, Between(today, today))
  {
    SameDaysSameSelection(txs, Today(today), Between(today, today));
  }

  /** A window that accepts no day selects nothing. */
  lemma {:induction false} EmptyWindowSelectsNothing(txs: seq<TransactionRow>, w: Window)
    requires forall day :: !Matches(w, day)
    ensures InWindow(txs, w) == []
  {
    if |txs| > 0 {
      EmptyWindowSelectsNothing(txs[..|txs| - 1], w);
    }
  }

  /** A range whose start lies after its end reports zero revenue, zero transactions and no best seller. */
  lemma ReversedRangeIsEmpty(txs: seq<TransactionRow>, details: seq<DetailRow>, products: map<int, Product>, start: int, end: int)
    requires start > end
    ensures Summarize(txs, details, products, Between(start, end)) == SalesSummary(0, 0, None)
  {
    EmptyWindowSelectsNothing(txs, Between(start, end));
  }

  /** On an empty store the today report is zero revenue, zero transactions and no best seller. */
  lemma EmptyStoreToday(products: map<int, Product>, today: int)
    ensures Summarize([], [], products, Today(today)) == SalesSummary(0, 0, None)
  {
  }
}
