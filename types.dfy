/**
 * The data that the sales-report pipeline consumes and produces.
 *
 * Money is modelled as exact `real` values; quantities as `int`.
 * A JavaScript value that may be missing or of the wrong shape (a field
 * that is `undefined`, not an array, not a function) is an `Option`.
 */
module SalesTypes {

  datatype Option<+T> = None | Some(value: T)

  datatype Result<+T, +E> = Success(value: T) | Failure(error: E)

  /** A thrown `Error`: the only thing that tells two failures apart is the message. */
  datatype Error = Error(message: string)

  const InvalidDataMessage: string := "Некорректные входные данные"
  const InvalidOptionsMessage: string := "Некорректные опции"

  /** A seller card (input). */
  datatype Seller = Seller(id: string, first_name: string, last_name: string)

  /** A customer card (input); the pipeline only checks that customers exist. */
  datatype Customer = Customer(id: string)

  /** A product card (input): the stock-keeping id and the purchase (cost) price. */
  datatype Product = Product(sku: string, purchase_price: real)

  /** One line of a purchase record; `discount` is a percentage. */
  datatype Item = Item(sku: string, quantity: int, sale_price: real, discount: real)

  /** A purchase record (input): the selling seller, the total paid and the lines. */
  datatype PurchaseRecord = PurchaseRecord(seller_id: string, total_amount: real, items: seq<Item>)

  /**
   * The dataset object. Each collection is `None` when the field is missing
   * or is not an array; the whole dataset may be missing too (an
   * `Option<Dataset>` at the entry point).
   */
  datatype Dataset = Dataset(
    sellers: Option<seq<Seller>>,
    customers: Option<seq<Customer>>,
    products: Option<seq<Product>>,
    purchase_records: Option<seq<PurchaseRecord>>)

  /** One entry of a seller's sold-products dictionary, also the shape of a top-product entry. */
  datatype ProductQty = ProductQty(sku: string, quantity: int)

  /**
   * The per-seller statistics record. `products_sold` is the dictionary
   * sku -> quantity as its entries in insertion order. `bonus` and
   * `top_products` are absent (`None`) until the last stage writes them.
   */
  datatype SellerStats = SellerStats(
    id: string,
    name: string,
    revenue: real,
    profit: real,
    sales_count: nat,
    products_sold: seq<ProductQty>,
    bonus: Option<real>,
    top_products: Option<seq<ProductQty>>)

  /** The revenue strategy: the revenue of one item. */
  type RevenuePolicy = Item -> real

  /** The bonus strategy: (rank index, number of sellers, seller record) to a bonus. */
  type BonusPolicy = (nat, nat, SellerStats) -> real

  /** The options object; a strategy that is missing or is not a function is `None`. */
  datatype Options = Options(calculateRevenue: Option<RevenuePolicy>, calculateBonus: Option<BonusPolicy>)
}
