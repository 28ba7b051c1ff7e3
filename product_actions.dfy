/** The product server actions: the product form's schema, and the store they write
    to — the products table plus one mirror table per category, each write routed
    first to products and then to the category's own table, as two statements with
    no transaction around them. */
module ProductActions {
  import opened Wrappers
  import opened Definitions
  import opened Forms

  /** The fields createProduct and updateProduct read from the submitted form. */
  datatype ProductForm = ProductForm(
    name: Field<string>,
    category: Field<string>,
    price: Field<real>,
    stock: Field<real>,
    expiry: Field<Timestamp>)

  /** What the schema hands on once the form is valid. */
  datatype ProductInput = ProductInput(
    name: string,
    category: Category,
    price: real,
    stock: real,
    expiry: Timestamp)

  /** The category enum check on the submitted field. */
  function CategoryField(f: Field<string>): Option<Category>
  {
    if f.Given? then CategoryOfTag(f.value) else None
  }

  /** The enum check accepts exactly a field holding one of the thirteen tags. */
  lemma CategoryFieldExactly(f: Field<string>)
    ensures CategoryField(f).Some? <==> exists c: Category :: f == Given(CategoryTag(c))
  {
    if f.Given? {
      CategoryOfTagExactly(f.value);
    }
  }

  /** `z.coerce.date().refine(d => d > new Date())`, with the clock read passed in. */
  predicate ExpiryInFuture(f: Field<Timestamp>, now: Timestamp)
  {
    var d := CoerceDate(f);
    d.Some? && d.value > now
  }

  /** The product fields that fail the schema, in the schema's order. */
  function ProductFieldErrors(form: ProductForm, now: Timestamp): seq<string>
  {
    (if AsString(form.name).None? then ["name"] else [])
    + (if CategoryField(form.category).None? then ["category"] else [])
    + (if !NumberAbove(form.price, 0.0) then ["price"] else [])
    + (if !NumberAbove(form.stock, -1.0) then ["stock"] else [])
    + (if !ExpiryInFuture(form.expiry, now) then ["expiry"] else [])
  }

  function InputOf(form: ProductForm): ProductInput
    requires form.name.Given? && CategoryField(form.category).Some?
    requires CoerceNumber(form.price).Some? && CoerceNumber(form.stock).Some? && CoerceDate(form.expiry).Some?
  {
    ProductInput(
      form.name.value, CategoryField(form.category).value,
      CoerceNumber(form.price).value, CoerceNumber(form.stock).value, CoerceDate(form.expiry).value)
  }

  /** `CreateProduct.safeParse`: the schema without its id field. */
  function ValidateProduct(form: ProductForm, now: Timestamp): (r: Result<ProductInput, seq<string>>)
    ensures r.Success? <==>
      && form.name.Given?
      && (exists c: Category :: form.category == Given(CategoryTag(c)))
      && NumberAbove(form.price, 0.0)
      && NumberAbove(form.stock, -1.0)
      && ExpiryInFuture(form.expiry, now)
    ensures r.Success? ==>
      && form.name == Given(r.value.name)
      && form.category == Given(CategoryTag(r.value.category))
      && CoerceNumber(form.price) == Some(r.value.price) && r.value.price > 0.0
      && CoerceNumber(form.stock) == Some(r.value.stock) && r.value.stock > -1.0
      && CoerceDate(form.expiry) == Some(r.value.expiry) && r.value.expiry > now
    ensures r.Failure? ==>
      && r.error != []
      && ("name" in r.error <==> !form.name.Given?)
      && ("category" in r.error <==> CategoryField(form.category).None?)
      && ("price" in r.error <==> !NumberAbove(form.price, 0.0))
      && ("stock" in r.error <==> !NumberAbove(form.stock, -1.0))
      && ("expiry" in r.error <==> !ExpiryInFuture(form.expiry, now))
      && (forall n :: n in r.error ==> n == "name" || n == "category" || n == "price" || n == "stock" || n == "expiry")
  {
    CategoryFieldExactly(form.category);
    var errs := ProductFieldErrors(form, now);
    if errs == [] then Success(InputOf(form)) else Failure(errs)
  }

  /** A form without a stock field passes with stock 0, since `Number(null)` is 0. */
  lemma MissingStockReadsAsZero(form: ProductForm, now: Timestamp)
    requires form.stock == Missing
    requires ValidateProduct(form, now).Success?
    ensures ValidateProduct(form, now).value.stock == 0.0
  {
  }

  /** A form without an expiry field coerces it to the epoch, which is never in the
      future, so it fails the schema on the expiry. The dashboard's create form names
      its expiry input `price`, so every form it submits is such a form. */
  lemma FormWithoutExpiryIsRejected(form: ProductForm, now: Timestamp)
    requires form.expiry == Missing
    requires now >= 0
    ensures ValidateProduct(form, now).Failure?
    ensures "expiry" in ValidateProduct(form, now).error
  {
  }

  /** The full FormSchema: an id that must be text, then the product fields. */
  function ValidateFullSchema(id: Field<string>, form: ProductForm, now: Timestamp): (r: Result<ProductInput, seq<string>>)
    ensures !id.Given? ==> r.Failure? && r.error != [] && r.error[0] == "id"
    ensures id.Given? ==> r == ValidateProduct(form, now)
  {
    var idErrors := if AsString(id).None? then ["id"] else [];
    var errs := idErrors + ProductFieldErrors(form, now);
    assert idErrors == [] ==> errs == ProductFieldErrors(form, now);
    assert idErrors != [] ==> errs[0] == "id";
    if errs == [] then Success(InputOf(form)) else Failure(errs)
  }

  /** updateProduct's check as written: UpdateProduct is the full schema, and the
      object it parses has no id, so it rejects every form. */
  function ValidateUpdateAsWritten(form: ProductForm, now: Timestamp): (r: Result<ProductInput, seq<string>>)
    ensures r.Failure? && r.error != [] && r.error[0] == "id"
  {
    ValidateFullSchema(Missing, form, now)
  }

  /** updateProduct's check as intended: the full schema given the id the action is
      bound to, which accepts and rejects exactly what createProduct's check does. */
  function ValidateUpdate(id: string, form: ProductForm, now: Timestamp): (r: Result<ProductInput, seq<string>>)
    ensures r == ValidateProduct(form, now)
  {
    ValidateFullSchema(Given(id), form, now)
  }

  /** A value bound to one parameter of a statement. */
  datatype SqlValue = SqlText(text: string) | SqlNumber(number: real) | SqlDate(date: Timestamp)

  /** An INSERT: its column list and its VALUES list, matched by position. */
  datatype Insert = Insert(columns: seq<string>, values: seq<SqlValue>)

  /** The position of `column` in a column list. */
  function ColumnIndex(columns: seq<string>, column: string): Option<nat>
  {
    if columns == [] then None
    else if columns[0] == column then Some(0)
    else match ColumnIndex(columns[1..], column)
      case Some(i) => Some(i + 1)
      case None => None
  }

  /** What an INSERT stores in `column`: the value in that column's position. */
  function BoundTo(ins: Insert, column: string): Option<SqlValue>
  {
    match ColumnIndex(ins.columns, column)
    case Some(i) => if i < |ins.values| then Some(ins.values[i]) else None
    case None => None
  }

  /** The column lists of createProduct's products INSERTs: the perishable
      categories name an expiry, cleaning, floral and household do not. */
  const PerishableColumns: seq<string> := ["id", "name", "category", "stock", "price", "expiry"]
  const NonPerishableColumns: seq<string> := ["id", "name", "stock", "category", "price"]

  lemma ColumnPositions()
    ensures ColumnIndex(PerishableColumns, "id") == Some(0)
    ensures ColumnIndex(PerishableColumns, "name") == Some(1)
    ensures ColumnIndex(PerishableColumns, "category") == Some(2)
    ensures ColumnIndex(PerishableColumns, "stock") == Some(3)
    ensures ColumnIndex(PerishableColumns, "price") == Some(4)
    ensures ColumnIndex(PerishableColumns, "expiry") == Some(5)
    ensures ColumnIndex(NonPerishableColumns, "id") == Some(0)
    ensures ColumnIndex(NonPerishableColumns, "name") == Some(1)
    ensures ColumnIndex(NonPerishableColumns, "stock") == Some(2)
    ensures ColumnIndex(NonPerishableColumns, "category") == Some(3)
    ensures ColumnIndex(NonPerishableColumns, "price") == Some(4)
    ensures ColumnIndex(NonPerishableColumns, "expiry") == None
  {
  }

  /** The products row an INSERT writes. None when Postgres rejects it because a
      numeric column is given text (`'cleaning'` is not an INT), or when a value is of
      a kind this model does not convert (a number bound to a text column). Columns the
      statement leaves out are NULL: status always, expiry for three categories. */
  function ProductsRowOf(ins: Insert): Option<Product>
  {
    var id := TextColumn(ins, "id");
    var name := TextColumn(ins, "name");
    var category := TextColumn(ins, "category");
    var stock := NumberColumn(ins, "stock");
    var price := NumberColumn(ins, "price");
    var expiry := DateColumn(ins, "expiry");
    if id.Some? && name.Some? && category.Some? && stock.Some? && price.Some? && expiry.Some? then
      Some(Product(id.value, name.value, category.value, price.value, stock.value, expiry.value, None))
    else
      None
  }

  function TextColumn(ins: Insert, column: string): Option<string>
  {
    match BoundTo(ins, column)
    case Some(SqlText(t)) => Some(t)
    case _ => None
  }

  function NumberColumn(ins: Insert, column: string): Option<real>
  {
    match BoundTo(ins, column)
    case Some(SqlNumber(x)) => Some(x)
    case _ => None
  }

  /** A nullable date column: NULL when the statement leaves it out. */
  function DateColumn(ins: Insert, column: string): Option<Option<Timestamp>>
  {
    match BoundTo(ins, column)
    case None => Some(None)
    case Some(SqlDate(d)) => Some(Some(d))
    case _ => None
  }

  /** The products row a valid product form is meant to produce. */
  function ProductsRow(id: string, p: ProductInput): Product
  {
    Product(id, p.name, CategoryTag(p.category), p.price, p.stock,
            if Perishable(p.category) then Some(p.expiry) else None, None)
  }

  /** createProduct's products INSERT as written. For the ten perishable categories
      it writes the intended row; for cleaning, floral and household its VALUES list
      puts the category where its column list names stock, and the stock where it
      names category, so no row can be stored. */
  function ProductsInsertAsWritten(id: string, p: ProductInput): (ins: Insert)
    ensures Perishable(p.category) ==> ProductsRowOf(ins) == Some(ProductsRow(id, p))
    ensures !Perishable(p.category) ==>
      && BoundTo(ins, "stock") == Some(SqlText(CategoryTag(p.category)))
      && BoundTo(ins, "category") == Some(SqlNumber(p.stock))
      && ProductsRowOf(ins) == None
  {
    ColumnPositions();
    if Perishable(p.category) then
      Insert(PerishableColumns,
             [SqlText(id), SqlText(p.name), SqlText(CategoryTag(p.category)),
              SqlNumber(p.stock), SqlNumber(p.price), SqlDate(p.expiry)])
    else
      Insert(NonPerishableColumns,
             [SqlText(id), SqlText(p.name), SqlText(CategoryTag(p.category)),
              SqlNumber(p.stock), SqlNumber(p.price)])
  }

  /** createProduct's products INSERT with the non-perishable VALUES list put in the
      order of its column list: every category writes the intended row, with no
      expiry for cleaning, floral and household. */
  function ProductsInsert(id: string, p: ProductInput): (ins: Insert)
    ensures BoundTo(ins, "stock") == Some(SqlNumber(p.stock))
    ensures BoundTo(ins, "category") == Some(SqlText(CategoryTag(p.category)))
    ensures ProductsRowOf(ins) == Some(ProductsRow(id, p))
  {
    ColumnPositions();
    if Perishable(p.category) then
      Insert(PerishableColumns,
             [SqlText(id), SqlText(p.name), SqlText(CategoryTag(p.category)),
              SqlNumber(p.stock), SqlNumber(p.price), SqlDate(p.expiry)])
    else
      Insert(NonPerishableColumns,
             [SqlText(id), SqlText(p.name), SqlNumber(p.stock),
              SqlText(CategoryTag(p.category)), SqlNumber(p.price)])
  }

  /** A row of one category's mirror table: a product row without the category. */
  datatype MirrorRow = MirrorRow(
    id: string,
    name: string,
    stock: real,
    price: real,
    expiry: Option<Timestamp>,
    status: Option<StockStatus>)

  /** The mirror row createProduct's second INSERT writes; it carries the same id,
      name, stock, price and expiry as the products row. */
  function MirrorRowFor(id: string, p: ProductInput): (m: MirrorRow)
    ensures var row := ProductsRow(id, p);
      m.id == row.id && m.name == row.name && m.stock == row.stock
      && m.price == row.price && m.expiry == row.expiry && m.status.None?
  {
    MirrorRow(id, p.name, p.stock, p.price, if Perishable(p.category) then Some(p.expiry) else None, None)
  }

  /** A products row after updateProduct's `SET name, price, stock[, expiry]`; the
      expiry is set only for the perishable categories. */
  function UpdatedProduct(row: Product, p: ProductInput): (r: Product)
    ensures r.id == row.id && r.category == row.category && r.status == row.status
    ensures r.name == p.name && r.price == p.price && r.stock == p.stock
    ensures Perishable(p.category) ==> r.expiry == Some(p.expiry)
    ensures !Perishable(p.category) ==> r.expiry == row.expiry
  {
    row.(name := p.name, price := p.price, stock := p.stock,
         expiry := if Perishable(p.category) then Some(p.expiry) else row.expiry)
  }

  /** A mirror row after the same SET. */
  function UpdatedMirror(row: MirrorRow, p: ProductInput): (r: MirrorRow)
    ensures r.id == row.id && r.status == row.status
    ensures r.name == p.name && r.price == p.price && r.stock == p.stock
    ensures Perishable(p.category) ==> r.expiry == Some(p.expiry)
    ensures !Perishable(p.category) ==> r.expiry == row.expiry
  {
    row.(name := p.name, price := p.price, stock := p.stock,
         expiry := if Perishable(p.category) then Some(p.expiry) else row.expiry)
  }

  /** `UPDATE products ... WHERE id = id`: no row changes when the id is unknown. */
  function UpdateProductsWhere(t: map<string, Product>, id: string, p: ProductInput): (u: map<string, Product>)
    ensures u.Keys == t.Keys
    ensures forall k :: k in t && k != id ==> u[k] == t[k]
    ensures id in t ==> u[id] == UpdatedProduct(t[id], p)
  {
    if id in t then t[id := UpdatedProduct(t[id], p)] else t
  }

  function UpdateMirrorWhere(t: map<string, MirrorRow>, id: string, p: ProductInput): (u: map<string, MirrorRow>)
    ensures u.Keys == t.Keys
    ensures forall k :: k in t && k != id ==> u[k] == t[k]
    ensures id in t ==> u[id] == UpdatedMirror(t[id], p)
  {
    if id in t then t[id := UpdatedMirror(t[id], p)] else t
  }

  /** The products table and the thirteen mirror tables. Every mirror row's id is a
      products id, and deleting a products row cascades to the mirror rows with its id.
      Each statement may fail; the model chooses that outcome nondeterministically, and
      a failure leaves in place whatever the statements before it wrote. */
  class ProductStore {
    var products: map<string, Product>
    var mirrors: map<Category, map<string, MirrorRow>>

    ghost predicate Valid()
      reads this
    {
      && (forall c: Category :: c in mirrors)
      && (forall id :: id in products ==> products[id].id == id)
      && (forall c: Category, id :: c in mirrors && id in mirrors[c] ==> mirrors[c][id].id == id)
      // Each mirror table's `FOREIGN KEY (id) REFERENCES products(id)`.
      && (forall c: Category, id :: c in mirrors && id in mirrors[c] ==> id in products)
    }

    /** Empty tables, as the seed script creates them. */
    constructor ()
      ensures Valid()
      ensures products == map[]
      ensures forall c: Category :: mirrors[c] == map[]
    {
      products := map[];
      mirrors := map[
        Snacks := map[], Pantry := map[], Candy := map[], Beverages := map[],
        MeatAndSeafood := map[], BakeryAndDesserts := map[], Breakfast := map[],
        Coffee := map[], Deli := map[], Organic := map[], Cleaning := map[],
        Floral := map[], Household := map[]];
      new;
      forall c: Category ensures c in mirrors {
        match c
        case Snacks => case Pantry => case Candy => case Beverages =>
        case MeatAndSeafood => case BakeryAndDesserts => case Breakfast =>
        case Coffee => case Deli => case Organic => case Cleaning =>
        case Floral => case Household =>
      }
    }

    /** createProduct; `newId` is the uuid it generates. */
    method CreateProduct(form: ProductForm, now: Timestamp, newId: string) returns (r: ActionState)
      requires Valid()
      requires newId !in products
      modifies this
      ensures Valid()
      ensures ValidateProduct(form, now).Failure? ==>
        && r == FieldErrors(ValidateProduct(form, now).error, "Missing Fields. Failed to Create Product.")
        && products == old(products) && mirrors == old(mirrors)
      ensures ValidateProduct(form, now).Success? && !Perishable(ValidateProduct(form, now).value.category) ==>
        && r == Message("Database Error: Failed to Create Product.")
        && products == old(products) && mirrors == old(mirrors)
      ensures ValidateProduct(form, now).Success? && Perishable(ValidateProduct(form, now).value.category) ==>
        var p := ValidateProduct(form, now).value;
        || (&& r == Redirect("/dashboard/products")
            && products == old(products)[newId := ProductsRow(newId, p)]
            && mirrors == old(mirrors)[p.category := old(mirrors)[p.category][newId := MirrorRowFor(newId, p)]])
        || (&& r == Message("Database Error: Failed to Create Product.")
            && mirrors == old(mirrors)
            && (products == old(products) || products == old(products)[newId := ProductsRow(newId, p)]))
    {
      var v := ValidateProduct(form, now);
      if v.Failure? {
        return FieldErrors(v.error, "Missing Fields. Failed to Create Product.");
      }
      var p := v.value;
      // The `switch (category)` sends both statements of every case the same way:
      // first to products, then to the category's own table. For cleaning, floral
      // and household the products INSERT is rejected (see ProductsInsertAsWritten).
      var row := ProductsRowOf(ProductsInsertAsWritten(newId, p));
      var firstFails: bool := *;
      if firstFails || row.None? {
        return Message("Database Error: Failed to Create Product.");
      }
      products := products[newId := row.value];
      var secondFails: bool := *;
      if secondFails {
        return Message("Database Error: Failed to Create Product.");
      }
      mirrors := mirrors[p.category := mirrors[p.category][newId := MirrorRowFor(newId, p)]];
      r := Redirect("/dashboard/products");
    }

    /** updateProduct, with its check as intended (see ValidateUpdateAsWritten). */
    method UpdateProduct(id: string, form: ProductForm, now: Timestamp) returns (r: ActionState)
      requires Valid()
      modifies this
      ensures Valid()
      ensures ValidateProduct(form, now).Failure? ==>
        && r == FieldErrors(ValidateProduct(form, now).error, "Missing Fields. Failed to Update Product.")
        && products == old(products) && mirrors == old(mirrors)
      ensures ValidateProduct(form, now).Success? ==>
        var p := ValidateProduct(form, now).value;
        || (&& r == Redirect("/dashboard/products")
            && products == UpdateProductsWhere(old(products), id, p)
            && mirrors == old(mirrors)[p.category := UpdateMirrorWhere(old(mirrors)[p.category], id, p)])
        || (&& r == Message("Database Error: Failed to Update Product.")
            && mirrors == old(mirrors)
            && (products == old(products) || products == UpdateProductsWhere(old(products), id, p)))
      ensures products.Keys == old(products).Keys
      ensures forall k :: k in products ==>
        products[k].category == old(products)[k].category && products[k].status == old(products)[k].status
    {
      var v := ValidateUpdate(id, form, now);
      if v.Failure? {
        return FieldErrors(v.error, "Missing Fields. Failed to Update Product.");
      }
      var p := v.value;
      var firstFails: bool := *;
      if firstFails {
        return Message("Database Error: Failed to Update Product.");
      }
      products := UpdateProductsWhere(products, id, p);
      var secondFails: bool := *;
      if secondFails {
        return Message("Database Error: Failed to Update Product.");
      }
      mirrors := mirrors[p.category := UpdateMirrorWhere(mirrors[p.category], id, p)];
      r := Redirect("/dashboard/products");
    }

    /** deleteProduct: removes the row from products, and ON DELETE CASCADE removes
      the row with that id from every mirror table. */
    method DeleteProduct(id: string) returns (r: ActionState)
      requires Valid()
      modifies this
      ensures Valid()
      ensures || (&& r == Message("Deleted Product.")
                  && products == old(products) - {id}
                  && mirrors.Keys == old(mirrors).Keys
                  && forall c :: c in mirrors ==> mirrors[c] == old(mirrors)[c] - {id})
              || (&& r == Message("Database Error: Failed to Delete Product.")
                  && products == old(products) && mirrors == old(mirrors))
    {
      var fails: bool := *;
      if fails {
        return Message("Database Error: Failed to Delete Product.");
      }
      products := products - {id};
      mirrors := map c | c in mirrors :: mirrors[c] - {id};
      r := Message("Deleted Product.");
    }
  }
}
