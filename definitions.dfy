/** The records of the inventory dashboard: the rows of its products, orders and
    customers tables and the enumerations their columns draw from. */
module Definitions {
  import opened Wrappers

  /** A JavaScript Date: milliseconds since the epoch. */
  type Timestamp = int

  /** The thirteen product categories, in the order of the product form's enum. */
  datatype Category =
    | Snacks | Pantry | Candy | Beverages | MeatAndSeafood | BakeryAndDesserts
    | Breakfast | Coffee | Deli | Organic | Cleaning | Floral | Household

  /** The text stored in `products.category` and accepted by the form's enum. */
  function CategoryTag(c: Category): string
  {
    match c
    case Snacks => "snacks"
    case Pantry => "pantry"
    case Candy => "candy"
    case Beverages => "beverages"
    case MeatAndSeafood => "meatAndSeafood"
    case BakeryAndDesserts => "bakeryAndDesserts"
    case Breakfast => "breakfast"
    case Coffee => "coffee"
    case Deli => "deli"
    case Organic => "organic"
    case Cleaning => "cleaning"
    case Floral => "floral"
    case Household => "household"
  }

  /** The enum check: the category a tag names, if it names one. */
  function CategoryOfTag(s: string): (r: Option<Category>)
    ensures r.Some? ==> CategoryTag(r.value) == s
  {
    if s == "snacks" then Some(Snacks)
    else if s == "pantry" then Some(Pantry)
    else if s == "candy" then Some(Candy)
    else if s == "beverages" then Some(Beverages)
    else if s == "meatAndSeafood" then Some(MeatAndSeafood)
    else if s == "bakeryAndDesserts" then Some(BakeryAndDesserts)
    else if s == "breakfast" then Some(Breakfast)
    else if s == "coffee" then Some(Coffee)
    else if s == "deli" then Some(Deli)
    else if s == "organic" then Some(Organic)
    else if s == "cleaning" then Some(Cleaning)
    else if s == "floral" then Some(Floral)
    else if s == "household" then Some(Household)
    else None
  }

  /** Every category's tag passes the enum check and names that category again,
      so the thirteen tags are distinct. */
  lemma CategoryTagRoundTrip(c: Category)
    ensures CategoryOfTag(CategoryTag(c)) == Some(c)
  {
  }

  /** The enum accepts exactly the thirteen tags. */
  lemma CategoryOfTagExactly(s: string)
    ensures CategoryOfTag(s).Some? <==> exists c: Category :: CategoryTag(c) == s
  {
    if exists c: Category :: CategoryTag(c) == s {
      var c: Category :| CategoryTag(c) == s;
      CategoryTagRoundTrip(c);
    }
  }

  /** Every category but cleaning, floral and household carries an expiry date. */
  predicate Perishable(c: Category)
  {
    !(c == Cleaning || c == Floral || c == Household)
  }

  datatype StockStatus = InStock | OutOfStock

  function StockStatusText(s: StockStatus): string
  {
    match s
    case InStock => "in-stock"
    case OutOfStock => "out-of-stock"
  }

  datatype OrderStatus = Pending | Paid

  function OrderStatusText(s: OrderStatus): string
  {
    match s
    case Pending => "pending"
    case Paid => "paid"
  }

  datatype Customer = Customer(id: string, name: string, email: string, image_url: string)

  /** A row of the products table. Price and stock are JavaScript numbers; a row that
      the product form wrote has no status (the form never computes one), and the
      three non-perishable categories have no expiry. */
  datatype Product = Product(
    id: string,
    name: string,
    category: string,
    price: real,
    stock: real,
    expiry: Option<Timestamp>,
    status: Option<StockStatus>)

  /** A row of the orders table: amount in cents, date as `YYYY-MM-DD` text. The
      Order type of the front end also lists product_id and quantity, which the
      table does not have and no write fills in. */
  datatype Order = Order(
    id: string,
    customer_id: string,
    amount: real,
    date: string,
    status: OrderStatus)
}
