/**
 * Records of the point-of-sale store, inferred from the fields the checkout
 * engine and the sales reports read and write. Money and quantities are
 * unbounded integers; dates are calendar days numbered by an integer.
 */
module Models {
  import opened Outcomes

  /** A row of the products table, keyed by its id in the catalog map. */
  datatype Product = Product(name: string, price: int, stock: int)

  /** One line of a checkout request. The quantity is not validated. */
  datatype CheckoutItem = CheckoutItem(productId: int, quantity: int)

  /** A line of the transaction returned to the client; it carries the product name. */
  datatype TransactionDetail = TransactionDetail(
    transactionId: int,
    productId: int,
    productName: string,
    quantity: int,
    subtotal: int)

  /** The transaction returned by a successful checkout. */
  datatype Transaction = Transaction(id: int, totalAmount: int, details: seq<TransactionDetail>)

  /** A row of the transactions table; `createdDay` is the day of its creation time. */
  datatype TransactionRow = TransactionRow(id: int, totalAmount: int, createdDay: int)

  /** A row of the transaction_details table; the product name is not stored. */
  datatype DetailRow = DetailRow(transactionId: int, productId: int, quantity: int, subtotal: int)

  /** The product sold most in a reporting window and the quantity sold. */
  datatype BestSeller = BestSeller(name: string, qtySold: int)

  /** Revenue, number of transactions and best seller over a reporting window. */
  datatype SalesSummary = SalesSummary(
    totalRevenue: int,
    totalTransactions: int,
    bestSeller: Option<BestSeller>)
}
