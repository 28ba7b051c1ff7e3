# Inventory dashboard: a Dafny model of its server actions and reads

The inventory dashboard is a Next.js application over Postgres for a grocery store.
Staff use it to keep products and orders. This project models four parts of it:

- **Product actions** (`app/lib/productActions.ts`):
  - the product form's zod schema;
  - `createProduct` and `updateProduct`, which write a row to the `products` table and then to the category's own mirror table, as two statements with no transaction;
  - `deleteProduct`.
- **Order actions** (`app/lib/actions.ts`):
  - the order form's schema;
  - the dollars-to-cents conversion and the creation date;
  - the single-statement writes to `orders`;
  - the error mapping of `authenticate`.
- **Reads** (`app/lib/data.ts`), modelled as functions over the rows of the tables:
  - case-insensitive substring search with ILIKE;
  - ORDER BY;
  - LIMIT/OFFSET pages of six rows, and the `ceil(count / 6)` page count;
  - the card totals and the per-customer aggregates;
  - the lookups by id.
- **Catalogue builder** (`app/lib/DTO.js`). For each CSV row it:
  - derives a stock status;
  - parses the price with `parseInt`;
  - classifies the row by SubCategory;
  - appends one record to `products` and one to the list of the row's category.

Form fields are modelled after zod's coercion:
- A field is `Missing` (null), `Given` or `Malformed`.
- `Number(null)` is 0 and `new Date(null)` is the epoch.
- NaN and Invalid Date are rejected.

Tables that the actions change are class fields of type `map`, keyed by id. Every SQL statement of the actions' writes may fail; the model picks that outcome nondeterministically. Reads take a table as the sequence of its rows in scan order. A read fails only where its input makes Postgres reject the query: a page below 1 gives a negative OFFSET (`None`), and an id that is not a uuid makes a lookup by id throw (`Failure`). These values are parameters:
- the clock (`now`);
- the generated uuids;
- the CSV row's random stock, uuid and faker expiry;
- Postgres's `::text` rendering of numbers and timestamps (`Data.TextCast`).

Modules, one file each:
- `Wrappers`, `Text`, `Sorting`, `Definitions`, `Forms`;
- `OrderActions`, `ProductActions`;
- `Data`, `Dto`, `RoundTrips`.

## Model

Where a row names a lemma, the definitions the lemma is about (for example Data.Join, the WHERE predicates, SumWhere, Dto.RowRecords, OrderActions.NewOrder, ProductActions.ProductsRow, Text.ILike and Sorting.SortBy) model the same source lines.

| member | source | states |
|---|---|---|
| Definitions.CategoryOfTag | app/lib/productActions.ts:25-40 | a tag that the category enum accepts names a category whose tag it is |
| Definitions.CategoryTagRoundTrip | app/lib/productActions.ts:25-40 | each of the thirteen tags passes the enum and names its own category, so the tags are distinct |
| Definitions.CategoryOfTagExactly | app/lib/productActions.ts:25-40 | the enum accepts exactly the thirteen tags |
| Text.Lower | app/lib/data.ts:109-113 | ILIKE's case folding keeps the length and lower-cases each character |
| Text.ContainsPatternIsSubstring | app/lib/data.ts:109-113 | `%q%` LIKE s holds iff q occurs in s, for a q without wildcards |
| Text.ILikeIsCaseInsensitiveSubstring | app/lib/data.ts:109-113 | `%q%` ILIKE s holds iff lower(q) occurs in lower(s), for a q without wildcards |
| Text.EmptyQueryMatchesAll | app/lib/data.ts:109-113 | the empty search `%%` matches every text |
| Text.StrLeTotal | app/lib/data.ts:114 | any two text keys are comparable under ORDER BY |
| Text.StrLeTransitive | app/lib/data.ts:114 | the ORDER BY order on text keys is transitive |
| Sorting.SortByCorrect | app/lib/data.ts:114 | ORDER BY returns its input rearranged: ordered by the key, and a permutation |
| Sorting.SortByLength | app/lib/data.ts:114 | ORDER BY keeps the number of rows |
| OrderActions.StatusOfText | app/lib/actions.ts:36-38 | the status enum accepts exactly 'pending' and 'paid', and names the status whose text it is |
| OrderActions.ValidateOrder | app/lib/actions.ts:28-57 | a form passes iff customerId is text, amount coerces to a number > 0 and status is 'pending' or 'paid'; on success the values are the form's; on failure each failing field is listed, and no name outside the three fields appears |
| OrderActions.FormWithoutAmountIsRejected | app/lib/actions.ts:61-65 | a form with no amount field, as the dashboard's order form submits, always fails on amount |
| OrderActions.AmountInCents | app/lib/actions.ts:77 | the stored cents divided by 100 give the dollars back, and are positive iff the dollars are |
| OrderActions.CreationDate | app/lib/actions.ts:78 | `split('T')[0]` contains no 'T', is a prefix of the timestamp, and stops at its first 'T' |
| OrderActions.CreationDateOfTimestamp | app/lib/actions.ts:78 | on an ISO timestamp `date + 'T' + time` the creation date is the date part |
| OrderActions.CreatedOrderFacts | app/lib/actions.ts:76-85 | the inserted row has the form's customer and status, a positive amount equal to the dollars in cents, and a date with no 'T' |
| OrderActions.Revised | app/lib/actions.ts:119-124 | an update sets customer_id, amount in cents and status, and keeps id and date |
| OrderActions.OrdersTable.CreateOrder | app/lib/actions.ts:59-96 | an invalid form returns the field errors with 'Missing Fields. Failed to Create Order.' and writes nothing; a valid one adds exactly the new row and redirects, or returns 'Database Error: Failed to Create Order.' with the table unchanged |
| OrderActions.OrdersTable.UpdateOrder | app/lib/actions.ts:98-131 | an invalid form writes nothing; a valid one revises only the row with that id (none if it is unknown), or fails with the table unchanged; keys, dates and other rows never change |
| OrderActions.OrdersTable.DeleteOrder | app/lib/actions.ts:133-141 | removes only that id and returns 'Deleted Order.', or returns 'Database Error: Failed to Delete Order.' with the table unchanged |
| OrderActions.Authenticate | app/lib/actions.ts:143-160 | 'CredentialsSignin' gives 'Invalid credentials.', any other AuthError 'Something went wrong.', any other error is rethrown unchanged, and a successful sign-in returns nothing |
| ProductActions.CategoryFieldExactly | app/lib/productActions.ts:25-44 | the category field passes iff it holds one of the thirteen tags |
| ProductActions.ValidateProduct | app/lib/productActions.ts:20-56 | a form passes iff name is text, category is one of the thirteen tags, price > 0, stock > -1 and expiry is strictly after now; on success the values are the form's; on failure each failing field is listed, and no name outside the five fields appears |
| ProductActions.MissingStockReadsAsZero | app/lib/productActions.ts:48 | a form without a stock field passes with stock 0 |
| ProductActions.FormWithoutExpiryIsRejected | app/lib/productActions.ts:49-53 | a form without an expiry field is coerced to the epoch and always fails on expiry; the dashboard's create form names its expiry input `price` |
| ProductActions.ValidateFullSchema | app/lib/productActions.ts:20-57 | the full schema fails, listing 'id' first, when no id is given; with an id it accepts exactly what CreateProduct accepts |
| ProductActions.ValidateUpdateAsWritten | app/lib/productActions.ts:234-247 | as written, updateProduct's check fails on every form, with 'id' first among the errors |
| ProductActions.ValidateUpdate | app/lib/productActions.ts:229-247 | updateProduct's check given its bound id accepts and rejects exactly what createProduct's check does |
| ProductActions.ColumnPositions | app/lib/productActions.ts:84-214 | the position of each column in the two column lists of the products INSERTs |
| ProductActions.ProductsInsertAsWritten | app/lib/productActions.ts:185-214 | for the ten perishable categories the INSERT writes the intended row; for cleaning, floral and household the stock column is bound to the category text and the category column to the stock, so no row can be stored |
| ProductActions.ProductsInsert | app/lib/productActions.ts:84-214 | with the values in column order, every category's INSERT binds the stock and category columns correctly and stores exactly the intended row |
| ProductActions.MirrorRowFor | app/lib/productActions.ts:86-93 | the mirror row has the same id, name, stock, price and expiry as the products row, and no status |
| ProductActions.UpdatedProduct | app/lib/productActions.ts:252-409 | the SET changes name, price and stock, and also expiry for perishable categories; id, category and status never change |
| ProductActions.UpdatedMirror | app/lib/productActions.ts:252-409 | the same SET on the mirror row; id and status never change |
| ProductActions.UpdateProductsWhere | app/lib/productActions.ts:255-259 | `UPDATE products ... WHERE id` keeps the keys, changes only that id's row, and changes nothing when the id is unknown |
| ProductActions.UpdateMirrorWhere | app/lib/productActions.ts:260-264 | the same for the mirror table |
| ProductActions.ProductStore.CreateProduct | app/lib/productActions.ts:59-227 | an invalid form returns the field errors with 'Missing Fields. Failed to Create Product.' and writes nothing; a valid cleaning, floral or household form never redirects: its products INSERT as written is rejected, so it returns 'Database Error: Failed to Create Product.' and writes nothing; a valid perishable form writes the products row and the mirror row of its category and redirects; or it returns 'Database Error: Failed to Create Product.' with the mirrors unchanged and the products row either absent or left in place |
| ProductActions.ProductStore.UpdateProduct | app/lib/productActions.ts:229-417 | an invalid form writes nothing; a valid one updates that id in products and then in its category's table, or fails after writing none or only the products row; keys, categories and statuses never change |
| ProductActions.ProductStore.DeleteProduct | app/lib/productActions.ts:419-427 | removes that id from products and, by the ON DELETE CASCADE of every mirror table's foreign key (scripts/seed.js:176-183 and the same clause on each mirror table), from every mirror table, and returns 'Deleted Product.'; or returns 'Database Error: Failed to Delete Product.' with nothing changed; every mirror id stays a products id |
| Data.Page | app/lib/data.ts:88-115 | a page exists iff currentPage ≥ 1; it holds at most six rows, exactly the rows from offset (currentPage − 1) × 6 on |
| Data.TotalPages | app/lib/data.ts:140 | pages × 6 ≥ count, (pages − 1) × 6 < count when count > 0, and 0 pages iff count is 0 |
| Data.PagesCoverRows | app/lib/data.ts:125-141 | row k of a result is on page k / 6 + 1, which is within the page count |
| Data.PagesPastTheLastAreEmpty | app/lib/data.ts:125-141 | a page past the page count is empty |
| Data.PageOfSorted | app/lib/data.ts:114-115 | a page of an ordered result is ordered |
| Data.SortedPageFacts | app/lib/data.ts:114-115 | a page of a sorted result is ordered and holds only rows of the result |
| Data.TopRows | app/lib/data.ts:40-41 | `ORDER BY ... LIMIT n` returns min(n, count) rows, ordered, and no row it leaves out precedes a row it returns |
| Data.Filter | app/lib/data.ts:108-113 | WHERE keeps exactly the rows that satisfy the condition |
| Data.JoinMembership | app/lib/data.ts:106-107 | a row is in the join iff it pairs an order with a customer whose id is the order's customer_id |
| Data.OrderMatchIsSubstring | app/lib/data.ts:108-113 | an order row matches a query without wildcards iff, ignoring case, the query is a substring of the name, email, amount text, date or status |
| Data.EmptyQueryMatchesEveryOrder | app/lib/data.ts:108-113 | the empty query matches every joined row |
| Data.FetchFilteredOrders | app/lib/data.ts:89-123 | at most six matching joined rows, latest date first, failing for a page below 1 |
| Data.FetchOrdersPages | app/lib/data.ts:125-146 | ceil(count / 6) of the rows the same WHERE selects |
| Data.OrdersPagesCoverMatches | app/lib/data.ts:89-146 | for a fixed order of ties, the same in every query, every matching joined row is on a page between 1 and the page count |
| Data.LatestOrderRows | app/lib/data.ts:36-41 | five joined rows, or all of them when there are fewer, latest date first |
| Data.LatestOrdersAreLatest | app/lib/data.ts:36-41 | the latest orders are joined rows, and no joined row left out is later than one returned |
| Data.FetchLatestOrders | app/lib/data.ts:32-52 | at most five rows, each the selected columns of the corresponding latest row |
| Data.StatusSumsAddUp | app/lib/data.ts:60-63 | the paid sum plus the pending sum is the sum of all amounts |
| Data.SumWhereZero | app/lib/data.ts:60-63 | with positive amounts a status sum is never negative, and is 0 iff no order has that status |
| Data.FetchCardData | app/lib/data.ts:54-86 | the number of orders and customers are the row counts, and paid plus pending is the total amount; with positive amounts, paid is 0 iff no order is paid |
| Data.CustomerRow | app/lib/data.ts:298-312 | a customer's group has the customer's columns; total_orders is the number of the customer's orders, total_pending and total_paid the sums of its pending and paid amounts; total_orders is 0 iff the customer has no orders, and then both sums are 0; pending plus paid is the sum of the customer's orders |
| Data.CustomerMatchIsSubstring | app/lib/data.ts:309-311 | a customer matches a query without wildcards iff, ignoring case, it is a substring of the name or email |
| Data.FetchFilteredCustomers | app/lib/data.ts:290-328 | at most six groups, each the group of a matching customer, ordered by name, failing for a page below 1 |
| Data.FetchCustomersPages | app/lib/data.ts:330-347 | ceil(count / 6) of the customers that match, which is 0 iff none matches |
| Data.CustomerPagesCoverGroups | app/lib/data.ts:298-341 | counting customers without the join gives the page count of the grouped rows |
| Data.ProductMatchIsSubstring | app/lib/data.ts:204-211 | a product matches a query without wildcards iff, ignoring case, it is a substring of one of the seven columns, a NULL expiry or status never matching |
| Data.EmptyQueryMatchesEveryProduct | app/lib/data.ts:204-211 | the empty query matches every product |
| Data.FetchFilteredProducts | app/lib/data.ts:193-221 | at most six matching products, by name descending, failing for a page below 1 |
| Data.FetchProductsPages | app/lib/data.ts:223-246 | ceil(count / 6) of the products the same WHERE selects, which is 0 iff none matches |
| Data.ProductsPagesCoverMatches | app/lib/data.ts:193-246 | for a fixed order of ties, the same in every query, every matching product is on a page between 1 and the page count |
| Data.FirstWithId | app/lib/data.ts:159-169 | `rows[0]` of `WHERE id = ...` exists iff some row has that id, and is the first such row |
| Data.FilterMultiplicity | app/lib/data.ts:129-137 | the WHERE keeps each satisfying row as often as the table holds it and no other row, so the page count counts the same rows as COUNT(*) |
| Data.StandardUuidIsAccepted | scripts/seed.js:72 | an id in the 8-4-4-4-12 spelling that uuid_generate_v4 produces is accepted by the uuid id column |
| Data.ShortIdIsRejected | scripts/seed.js:72 | the id 'abc', as in the path /dashboard/orders/abc/edit, is not accepted by the uuid id column |
| Data.FetchOrderById | app/lib/data.ts:148-174 | an id that is not a uuid throws 'Failed to fetch order.', and only such an id; otherwise some order with that id, amount divided by 100, or none iff no order has that id |
| Data.FetchProductByIdAsWritten | app/lib/data.ts:248-270 | an id that is not a uuid throws 'Failed to fetch product.', and only such an id; otherwise some product with that id, price divided by 100, or none iff no product has that id |
| Data.FetchProductById | app/lib/data.ts:248-270 | the same throw on a non-uuid id; otherwise, without the division, a product with that id unchanged, or none iff no product has it |
| RoundTrips.CreatedOrderReadsBack | app/lib/data.ts:148-174 | an order createOrder stored reads back with the form's customer, dollar amount and status |
| RoundTrips.RevisedOrderReadsBack | app/lib/actions.ts:117-124 | after updateOrder the edit form reads back the customer, dollar amount and status just submitted |
| RoundTrips.CreatedProductPriceShrinksAsWritten | app/lib/data.ts:258-265 | as written, a product createProduct stored reads back with its price divided by 100, never the price entered |
| RoundTrips.CreatedProductReadsBack | app/lib/data.ts:248-270 | without the division, a stored product reads back exactly as written, price included |
| Dto.StatusOf | app/lib/DTO.js:36 | 'in-stock' iff stock > 0, else 'out-of-stock' |
| Dto.DigitRun | app/lib/DTO.js:35 | the longest run of digits at the start of the text |
| Dto.ParseInt | app/lib/DTO.js:35 | after leading white space and an optional sign, NaN (None) iff no digit follows |
| Dto.ParsePriceOfDollars | app/lib/DTO.js:35 | `'$' + dollars + '.' + cents` parses to the dollars, dropping the fraction, so '$12.99' gives 12 |
| Dto.ParsePriceWithoutNumber | app/lib/DTO.js:35 | a price with no number after its first character is NaN |
| Dto.CategoryOfSubCategory | app/lib/DTO.js:39-184 | a SubCategory that enters an `if` is that category's SubCategory text |
| Dto.SubCategoryEntersOneBranch | app/lib/DTO.js:39-184 | no SubCategory enters two of the thirteen `if`s, and it enters one iff it is one of the thirteen texts |
| Dto.RowRecordsFacts | app/lib/DTO.js:28-184 | a row yields records iff its SubCategory is one of the thirteen; the products record carries the category tag; both records share id, name, stock, price and status; the ten perishable categories carry the drawn expiry, the other three none |
| Dto.ProductsCountAccepted | app/lib/DTO.js:26-185 | products holds one record per row whose SubCategory is one of the thirteen |
| Dto.ListsOfPerCategory | app/lib/DTO.js:39-184 | pushing the rows keeps the thirteen lists, and each list grows by exactly the records of its own category, in row order |
| Dto.ListHoldsItsCategory | app/lib/DTO.js:39-184 | every record of a category's list comes from a row of that SubCategory, with that row's id |
| Dto.Catalog.AddRow | app/lib/DTO.js:31-184 | one row appends its products record and pushes its list record onto its category's list, or changes nothing, keeping products as long as the lists together |
| Dto.Catalog.Load | app/lib/DTO.js:26-185 | products becomes the old records followed by the rows' records in row order, and the lists the old lists with the rows' records pushed in row order, keeping products as long as the lists together |
| Dto.LoadFile | app/lib/DTO.js:5-185 | from empty arrays, products holds one record per accepted row in row order, each list holds its category's records in row order, and products is as long as the thirteen lists together |

## Left out

- I/O and side effects are not modelled: `revalidatePath`, and `redirect` beyond the path it names. Logging, `noStore` and the Next.js caching are left out too.
- Error texts: zod's field error messages are modelled only as the names of the failing fields, not the message texts.
- ProductActions.ProductStore.UpdateProduct: models updateProduct with its id check as intended (ValidateUpdate, given the bound id), not as written, where every call returns the field error on 'id' and writes nothing (ValidateUpdateAsWritten states that behaviour).
- ProductActions.ProductStore.CreateProduct and ProductActions.ProductStore.UpdateProduct do not truncate the expiry to a day as `toDateString` does; the model stores the timestamp.
- Under the schema of scripts/seed.js some statements always fail. The model allows each of these outcomes as a failure but does not force it:
  - `products.status` and every mirror table's `status` are NOT NULL (scripts/seed.js:118), and createProduct supplies no status;
  - the mirror tables `pmeatAndSeafood` (app/lib/productActions.ts:131) and `bakeryAndDesserts` (app/lib/productActions.ts:141, 321) do not exist in that script, which creates `meatAndSeafood` and `bakeryAndDessert`.
- Column types are not modelled: Postgres rounds DECIMAL(10,2) values to two places and rejects fractional text for an INT column (a stock or an `orders.amount` in fractional cents); neither the rounding nor the rejection is modelled.
- JavaScript numbers are modelled as unbounded reals or integers, without floating-point rounding: `amount * 100` and `price / 100` are exact here.
- ILIKE is modelled as LIKE over ASCII-lower-cased text. Collations, Unicode case folding and LIKE's backslash escape are not modelled.
- ORDER BY is modelled as code-point order, with ties kept in scan order. Postgres leaves the order of ties open, and may order them differently for different LIMIT and OFFSET values. Data.OrdersPagesCoverMatches and Data.ProductsPagesCoverMatches hold for the model's one fixed tie order; with Postgres a row that ties with others (orders of the same day) can appear on two pages or on none.
- Data.UuidText follows PostgreSQL's uuid input (16 hex-digit pairs, an optional hyphen after every second pair, optional braces); it is not checked against that function's code, which is not part of this model.
- Reads are modelled as succeeding apart from the negative OFFSET and the uuid input error. Connection errors and every other database error, which make each data function throw 'Failed to fetch …', are not modelled.
- Sorting by `orders.date` as text assumes four-digit years.
- Orders have only the statuses 'pending' and 'paid'. The VARCHAR column could hold other text, which the sums would then skip.
- `formatCurrency` is not applied to the amounts the reads return.
- `fetchRevenue`, `fetchProducts`, `fetchCustomers` and `getUser` are not part of this model; they are plain unfiltered reads outside the core.
- Stock decrements, order amounts computed from quantity × price and the revenue rollup have no implementing code, and are not modelled.
- `signIn` itself and next-auth's credentials check are not modelled; Authenticate takes how the call ended as input.
- The CSV parse by convert-csv-to-json is not modelled: its quoting and its type formatting of values before `.slice` is applied.
- Dto.IsJsSpace covers the ASCII white space, U+00A0, U+FEFF, U+2028 and U+2029, not every Unicode space separator that parseInt skips.
- Concurrency is not modelled: the `Promise.all` reads run one after another here.

## Findings

| source | as written | input that shows it | evidently intended | confidence | as-written member | corrected member |
|---|---|---|---|---|---|---|
| app/lib/productActions.ts:57 | `UpdateProduct` is the full FormSchema, whose `id` is required, and the object parsed at lines 234-240 carries no id | any valid product form sent to updateProduct: the result is 'Missing Fields. Failed to Update Product.' with an error on id | validate the five product fields only, or the parsed object given the bound id | not executed | ProductActions.ValidateUpdateAsWritten | ProductActions.ValidateUpdate |
| app/lib/productActions.ts:185-214 | for cleaning, floral and household the column list is (id, name, stock, category, price) but the values are (id, name, category, stock, price); the store's CreateProduct runs this INSERT as written | category 'cleaning' with stock 5: the INT column stock is given the text 'cleaning' | values in the order of the column list | not executed | ProductActions.ProductsInsertAsWritten | ProductActions.ProductsInsert |
| app/lib/data.ts:258-265 | fetchProductById divides the price by 100 "from cents", but createProduct stores the dollars that were entered | a product created with price 12.5 is read back with price 0.125 | return the stored price unchanged | not executed | Data.FetchProductByIdAsWritten | Data.FetchProductById |
