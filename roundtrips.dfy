/** What a write followed by a read by id gives back. The read sees the table as a
    scan: a sequence holding each row of the table's map. The ids are uuids, as the
    id columns are of type uuid. */
module RoundTrips {
  import opened Wrappers
  import opened Definitions
  import opened Forms
  import opened OrderActions
  import opened ProductActions
  import opened Data

  /** With ids as keys, the only row of a scan carrying a given id is the table's row
      under that key. */
  lemma ScanRowWithId<T>(table: map<string, T>, scan: seq<T>, idOf: T -> string, id: string, row: T)
    requires forall k :: k in table ==> idOf(table[k]) == k
    requires forall x :: x in scan <==> x in table.Values
    requires row in scan && idOf(row) == id
    ensures id in table && row == table[id]
  {
    assert row in table.Values;
    var k :| k in table && table[k] == row;
  }

  /** An order createOrder stored is read back by fetchOrderById with the customer,
      dollar amount and status of the form. */
  lemma CreatedOrderReadsBack(rows: map<string, Order>, scan: seq<Order>, newId: string, form: OrderForm, nowIso: string)
    requires ValidateOrder(form).Success?
    requires UuidText(newId)
    requires forall k :: k in rows ==> rows[k].id == k
    requires newId in rows && rows[newId] == NewOrder(newId, ValidateOrder(form).value, nowIso)
    requires forall o :: o in scan <==> o in rows.Values
    ensures var input := ValidateOrder(form).value;
      FetchOrderById(newId, scan) == Success(Some(OrderFormRow(newId, input.customerId, input.amount, input.status)))
  {
    assert rows[newId] in scan;
    var r := FetchOrderById(newId, scan);
    assert r.Success? && r.value.Some?;
    var o :| o in scan && o.id == newId && r.value.value == OrderFormRow(o.id, o.customer_id, o.amount / 100.0, o.status);
    ScanRowWithId(rows, scan, OrderId, newId, o);
  }

  /** After updateOrder the edit form reads back the values just submitted. */
  lemma RevisedOrderReadsBack(rows: map<string, Order>, scan: seq<Order>, id: string, before: Order, form: OrderForm)
    requires ValidateOrder(form).Success?
    requires forall k :: k in rows ==> rows[k].id == k
    requires before.id == id && UuidText(id)
    requires id in rows && rows[id] == Revised(before, ValidateOrder(form).value)
    requires forall o :: o in scan <==> o in rows.Values
    ensures var input := ValidateOrder(form).value;
      FetchOrderById(id, scan) == Success(Some(OrderFormRow(id, input.customerId, input.amount, input.status)))
  {
    assert rows[id] in scan;
    var r := FetchOrderById(id, scan);
    assert r.Success? && r.value.Some?;
    var o :| o in scan && o.id == id && r.value.value == OrderFormRow(o.id, o.customer_id, o.amount / 100.0, o.status);
    ScanRowWithId(rows, scan, OrderId, id, o);
  }

  /** As written, fetchProductById divides the stored dollars by 100, so a product
      createProduct stored is read back with a price a hundred times smaller. */
  lemma CreatedProductPriceShrinksAsWritten(products: map<string, Product>, scan: seq<Product>, id: string, form: ProductForm, now: Timestamp)
    requires ValidateProduct(form, now).Success?
    requires UuidText(id)
    requires forall k :: k in products ==> products[k].id == k
    requires id in products && products[id] == ProductsRow(id, ValidateProduct(form, now).value)
    requires forall p :: p in scan <==> p in products.Values
    ensures FetchProductByIdAsWritten(id, scan).Success? && FetchProductByIdAsWritten(id, scan).value.Some?
    ensures FetchProductByIdAsWritten(id, scan).value.value.price == ValidateProduct(form, now).value.price / 100.0
    ensures FetchProductByIdAsWritten(id, scan).value.value.price != ValidateProduct(form, now).value.price
  {
    assert products[id] in scan;
    var p :| p in scan && p.id == id && FetchProductByIdAsWritten(id, scan).value.value == p.(price := p.price / 100.0);
    ScanRowWithId(products, scan, ProductId, id, p);
  }

  /** Without the division, a stored product is read back exactly as createProduct
      wrote it, price included. */
  lemma CreatedProductReadsBack(products: map<string, Product>, scan: seq<Product>, id: string, form: ProductForm, now: Timestamp)
    requires ValidateProduct(form, now).Success?
    requires UuidText(id)
    requires forall k :: k in products ==> products[k].id == k
    requires id in products && products[id] == ProductsRow(id, ValidateProduct(form, now).value)
    requires forall p :: p in scan <==> p in products.Values
    ensures FetchProductById(id, scan) == Success(Some(ProductsRow(id, ValidateProduct(form, now).value)))
    ensures FetchProductById(id, scan).value.value.price == ValidateProduct(form, now).value.price
  {
    assert products[id] in scan;
    var p := FetchProductById(id, scan).value.value;
    ScanRowWithId(products, scan, ProductId, id, p);
  }
}
