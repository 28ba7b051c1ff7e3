/** The reads of the dashboard: what rows each query of the data layer returns, given
    the rows of the tables it reads. A table is the sequence of its rows in scan order;
    a query that fails in the database (a negative OFFSET) yields None. */
module Data {
  import opened Wrappers
  import opened Definitions
  import opened Text
  import opened Sorting

  // ---------------------------------------------------------------- pagination

  const ITEMS_PER_PAGE: nat := 6

  function Min(a: int, b: int): int
  {
    if a <= b then a else b
  }

  /** `(currentPage - 1) * ITEMS_PER_PAGE`. */
  function Offset(currentPage: int): int
  {
    (currentPage - 1) * ITEMS_PER_PAGE
  }

  /** `LIMIT ITEMS_PER_PAGE OFFSET offset`. Postgres rejects a negative OFFSET, so a
      current page below 1 makes the query fail. */
  function Page<T(!new)>(rows: seq<T>, currentPage: int): (r: Option<seq<T>>)
    ensures r.Some? <==> currentPage >= 1
    ensures r.Some? ==> |r.value| <= ITEMS_PER_PAGE
    ensures r.Some? ==>
      |r.value| == if Offset(currentPage) >= |rows| then 0 else Min(ITEMS_PER_PAGE, |rows| - Offset(currentPage))
    ensures r.Some? ==> forall k :: 0 <= k < |r.value| ==> r.value[k] == rows[Offset(currentPage) + k]
    ensures r.Some? ==> forall x :: x in r.value ==> x in rows
  {
    if currentPage < 1 then None
    else
      var off := Offset(currentPage);
      var start := Min(off, |rows|);
      var end := Min(off + ITEMS_PER_PAGE, |rows|);
      Some(rows[start..end])
  }

  /** `Math.ceil(count / ITEMS_PER_PAGE)`: the fewest pages that hold `count` rows. */
  function TotalPages(count: nat): (pages: nat)
    ensures pages * ITEMS_PER_PAGE >= count
    ensures count > 0 ==> (pages - 1) * ITEMS_PER_PAGE < count
    ensures pages == 0 <==> count == 0
  {
    (count + ITEMS_PER_PAGE - 1) / ITEMS_PER_PAGE
  }

  /** Row `k` of a result is on page `k / 6 + 1`, which is within the page count. */
  lemma PagesCoverRows<T(!new)>(rows: seq<T>, k: nat)
    requires k < |rows|
    ensures var page := k / ITEMS_PER_PAGE + 1;
      && 1 <= page <= TotalPages(|rows|)
      && Page(rows, page).Some?
      && k % ITEMS_PER_PAGE < |Page(rows, page).value|
      && Page(rows, page).value[k % ITEMS_PER_PAGE] == rows[k]
  {
    var page := k / ITEMS_PER_PAGE + 1;
    assert Offset(page) + k % ITEMS_PER_PAGE == k;
  }

  /** A page past the page count is empty. */
  lemma PagesPastTheLastAreEmpty<T(!new)>(rows: seq<T>, currentPage: int)
    requires currentPage > TotalPages(|rows|)
    ensures Page(rows, currentPage) == Some([])
  {
    assert Offset(currentPage) >= TotalPages(|rows|) * ITEMS_PER_PAGE;
  }

  /** A page of an ordered result is itself ordered. */
  lemma PageOfSorted<T(!new)>(rows: seq<T>, key: T -> string, desc: bool, currentPage: int)
    requires SortedBy(rows, key, desc)
    requires currentPage >= 1
    ensures SortedBy(Page(rows, currentPage).value, key, desc)
  {
    var p := Page(rows, currentPage).value;
    var off := Offset(currentPage);
    forall i, j | 0 <= i < j < |p| ensures InOrder(key(p[i]), key(p[j]), desc) {
      assert p[i] == rows[off + i] && p[j] == rows[off + j];
    }
  }

  /** A page of a sorted result is ordered and holds only rows of the result. */
  lemma SortedPageFacts<T(!new)>(all: seq<T>, key: T -> string, desc: bool, currentPage: int)
    requires currentPage >= 1
    ensures SortedBy(Page(SortBy(all, key, desc), currentPage).value, key, desc)
    ensures forall x :: x in Page(SortBy(all, key, desc), currentPage).value ==> x in all
  {
    var sorted := SortBy(all, key, desc);
    SortByCorrect(all, key, desc);
    PageOfSorted(sorted, key, desc, currentPage);
    forall x | x in Page(sorted, currentPage).value ensures x in all {
      assert x in multiset(sorted);
    }
  }

  /** The first `n` rows of a sorted result: as many as there are up to `n`, ordered,
      and no row left out precedes a row kept. */
  lemma TopRows<T(!new)>(all: seq<T>, key: T -> string, desc: bool, n: nat)
    ensures var sorted := SortBy(all, key, desc);
      var top := sorted[..Min(n, |sorted|)];
      && |top| == Min(n, |all|)
      && SortedBy(top, key, desc)
      && (forall x :: x in top ==> x in all)
      && (forall x, k :: x in all && x !in top && 0 <= k < |top| ==> InOrder(key(top[k]), key(x), desc))
  {
    var sorted := SortBy(all, key, desc);
    SortByCorrect(all, key, desc);
    SortByLength(all, key, desc);
    var top := sorted[..Min(n, |sorted|)];
    forall x | x in top ensures x in all {
      assert x in multiset(sorted);
    }
    forall x, k | x in all && x !in top && 0 <= k < |top|
      ensures InOrder(key(top[k]), key(x), desc)
    {
      assert x in multiset(sorted);
      var j :| 0 <= j < |sorted| && sorted[j] == x;
      assert top[k] == sorted[k];
    }
  }

  /** `WHERE`: the rows that satisfy the condition, in scan order, each as often as
      the table holds it. */
  function Filter<T(!new)>(s: seq<T>, keep: T -> bool): (r: seq<T>)
    ensures |r| <= |s|
    ensures forall x :: x in r <==> x in s && keep(x)
  {
    if s == [] then []
    else
      assert forall x :: x in s <==> x == s[0] || x in s[1..];
      (if keep(s[0]) then [s[0]] else []) + Filter(s[1..], keep)
  }

  /** The WHERE keeps each satisfying row as often as the table holds it and drops the
      others, so `|Filter(s, keep)|` is the COUNT(*) of the same WHERE. */
  lemma {:induction false} FilterMultiplicity<T(!new)>(s: seq<T>, keep: T -> bool)
    ensures forall x :: multiset(Filter(s, keep))[x] == if keep(x) then multiset(s)[x] else 0
  {
    if s != [] {
      FilterMultiplicity(s[1..], keep);
      assert s == [s[0]] + s[1..];
      assert multiset(s) == multiset([s[0]]) + multiset(s[1..]);
      var head: seq<T> := if keep(s[0]) then [s[0]] else [];
      assert Filter(s, keep) == head + Filter(s[1..], keep);
      assert multiset(Filter(s, keep)) == multiset(head) + multiset(Filter(s[1..], keep));
    }
  }

  /** How Postgres renders a number or a timestamp in a `::text` cast. */
  datatype TextCast = TextCast(number: real -> string, timestamp: Timestamp -> string)

  // ---------------------------------------------------------------- orders

  /** A row of `orders JOIN customers ON orders.customer_id = customers.id`. */
  datatype OrdersTableRow = OrdersTableRow(
    id: string,
    amount: real,
    date: string,
    status: OrderStatus,
    name: string,
    email: string,
    image_url: string)

  function JoinRow(o: Order, c: Customer): OrdersTableRow
  {
    OrdersTableRow(o.id, o.amount, o.date, o.status, c.name, c.email, c.image_url)
  }

  function JoinOne(o: Order, customers: seq<Customer>): seq<OrdersTableRow>
  {
    if customers == [] then []
    else
      (if customers[0].id == o.customer_id then [JoinRow(o, customers[0])] else [])
      + JoinOne(o, customers[1..])
  }

  /** The inner join: one row per order and customer whose ids agree. */
  function Join(orders: seq<Order>, customers: seq<Customer>): seq<OrdersTableRow>
  {
    if orders == [] then []
    else JoinOne(orders[0], customers) + Join(orders[1..], customers)
  }

  lemma {:induction false} JoinOneMembership(o: Order, customers: seq<Customer>, row: OrdersTableRow)
    ensures row in JoinOne(o, customers) <==>
      exists c :: c in customers && c.id == o.customer_id && row == JoinRow(o, c)
  {
    if customers != [] {
      JoinOneMembership(o, customers[1..], row);
      assert forall c :: c in customers <==> c == customers[0] || c in customers[1..];
    }
  }

  /** A row is in the join exactly when it pairs an order with that order's customer. */
  lemma {:induction false} JoinMembership(orders: seq<Order>, customers: seq<Customer>, row: OrdersTableRow)
    ensures row in Join(orders, customers) <==>
      exists o, c :: o in orders && c in customers && c.id == o.customer_id && row == JoinRow(o, c)
  {
    if orders != [] {
      JoinOneMembership(orders[0], customers, row);
      JoinMembership(orders[1..], customers, row);
      assert forall o :: o in orders <==> o == orders[0] || o in orders[1..];
    }
  }

  /** The WHERE of fetchFilteredOrders and fetchOrdersPages: the pattern `%query%`
      ILIKE the customer's name or email, the amount or date as text, or the status. */
  predicate OrderRowMatches(query: string, cast: TextCast, row: OrdersTableRow)
  {
    var p := ContainsPattern(query);
    || ILike(row.name, p)
    || ILike(row.email, p)
    || ILike(cast.number(row.amount), p)
    || ILike(row.date, p)
    || ILike(OrderStatusText(row.status), p)
  }

  function OrderMatcher(query: string, cast: TextCast): OrdersTableRow -> bool
  {
    row => OrderRowMatches(query, cast, row)
  }

  /** A query without wildcards matches an order row exactly when, ignoring ASCII
      case, it is a substring of one of the five searched fields. */
  lemma OrderMatchIsSubstring(query: string, cast: TextCast, row: OrdersTableRow)
    requires NoWildcards(query)
    ensures OrderRowMatches(query, cast, row) <==>
      || OccursIn(Lower(query), Lower(row.name))
      || OccursIn(Lower(query), Lower(row.email))
      || OccursIn(Lower(query), Lower(cast.number(row.amount)))
      || OccursIn(Lower(query), Lower(row.date))
      || OccursIn(Lower(query), Lower(OrderStatusText(row.status)))
  {
    ILikeIsCaseInsensitiveSubstring(query, row.name);
    ILikeIsCaseInsensitiveSubstring(query, row.email);
    ILikeIsCaseInsensitiveSubstring(query, cast.number(row.amount));
    ILikeIsCaseInsensitiveSubstring(query, row.date);
    ILikeIsCaseInsensitiveSubstring(query, OrderStatusText(row.status));
  }

  /** The empty search matches every joined row. */
  lemma EmptyQueryMatchesEveryOrder(cast: TextCast, row: OrdersTableRow)
    ensures OrderRowMatches("", cast, row)
  {
    EmptyQueryMatchesAll(row.name);
  }

  /** `ORDER BY orders.date`: a DATE, whose `YYYY-MM-DD` text orders as the date does. */
  function OrderDate(row: OrdersTableRow): string
  {
    row.date
  }

  /** Every matching joined row, latest date first, before LIMIT and OFFSET. */
  function FilteredOrders(query: string, cast: TextCast, orders: seq<Order>, customers: seq<Customer>): seq<OrdersTableRow>
  {
    SortBy(Filter(Join(orders, customers), OrderMatcher(query, cast)), OrderDate, true)
  }

  /** fetchFilteredOrders: one page of the matching rows, latest first. */
  function FetchFilteredOrders(query: string, cast: TextCast, orders: seq<Order>, customers: seq<Customer>, currentPage: int)
    : (r: Option<seq<OrdersTableRow>>)
    ensures r.Some? <==> currentPage >= 1
    ensures r.Some? ==> |r.value| <= ITEMS_PER_PAGE
    ensures r.Some? ==> forall row :: row in r.value ==> row in Join(orders, customers) && OrderRowMatches(query, cast, row)
    ensures r.Some? ==> SortedBy(r.value, OrderDate, true)
  {
    if currentPage >= 1 then
      SortedPageFacts(Filter(Join(orders, customers), OrderMatcher(query, cast)), OrderDate, true, currentPage);
      Page(FilteredOrders(query, cast, orders, customers), currentPage)
    else
      Page(FilteredOrders(query, cast, orders, customers), currentPage)
  }

  /** fetchOrdersPages: the page count of the same WHERE. */
  function FetchOrdersPages(query: string, cast: TextCast, orders: seq<Order>, customers: seq<Customer>): (pages: nat)
    ensures var count := |Filter(Join(orders, customers), OrderMatcher(query, cast))|;
      && pages * ITEMS_PER_PAGE >= count
      && (count > 0 ==> (pages - 1) * ITEMS_PER_PAGE < count)
      && (pages == 0 <==> count == 0)
  {
    TotalPages(|Filter(Join(orders, customers), OrderMatcher(query, cast))|)
  }

  /** For a fixed order of ties, the same in every query, the page count and the
      page query agree: every matching row is on one of the pages the count announces.
      Postgres does not fix that order, so rows with the same date may move between
      pages. */
  lemma OrdersPagesCoverMatches(query: string, cast: TextCast, orders: seq<Order>, customers: seq<Customer>, row: OrdersTableRow)
    requires row in Join(orders, customers) && OrderRowMatches(query, cast, row)
    ensures exists page ::
      1 <= page <= FetchOrdersPages(query, cast, orders, customers)
      && row in FetchFilteredOrders(query, cast, orders, customers, page).value
  {
    var all := Filter(Join(orders, customers), OrderMatcher(query, cast));
    var sorted := FilteredOrders(query, cast, orders, customers);
    SortByCorrect(all, OrderDate, true);
    SortByLength(all, OrderDate, true);
    assert row in multiset(sorted);
    var k :| 0 <= k < |sorted| && sorted[k] == row;
    PagesCoverRows(sorted, k);
    var page := k / ITEMS_PER_PAGE + 1;
    assert row in FetchFilteredOrders(query, cast, orders, customers, page).value;
  }

  /** fetchLatestOrders before its projection: `ORDER BY orders.date DESC LIMIT 5`.
      It returns five joined rows, or all of them when there are fewer, latest first,
      and no row it leaves out is later than a row it returns. */
  function LatestOrderRows(orders: seq<Order>, customers: seq<Customer>): (r: seq<OrdersTableRow>)
    ensures |r| == Min(5, |Join(orders, customers)|)
    ensures SortedBy(r, OrderDate, true)
  {
    var joined := Join(orders, customers);
    TopRows(joined, OrderDate, true, 5);
    var sorted := SortBy(joined, OrderDate, true);
    sorted[..Min(5, |sorted|)]
  }

  /** The latest orders come from the join, and no joined row left out is later than
      one returned. */
  lemma LatestOrdersAreLatest(orders: seq<Order>, customers: seq<Customer>)
    ensures forall row :: row in LatestOrderRows(orders, customers) ==> row in Join(orders, customers)
    ensures forall row, k ::
      row in Join(orders, customers) && row !in LatestOrderRows(orders, customers) && 0 <= k < |LatestOrderRows(orders, customers)| ==>
      StrLe(row.date, LatestOrderRows(orders, customers)[k].date)
  {
    var joined := Join(orders, customers);
    var latest := LatestOrderRows(orders, customers);
    var sorted := SortBy(joined, OrderDate, true);
    TopRows(joined, OrderDate, true, 5);
    assert latest == sorted[..Min(5, |sorted|)];
    forall row, k | row in joined && row !in latest && 0 <= k < |latest|
      ensures StrLe(row.date, latest[k].date)
    {
      assert InOrder(OrderDate(latest[k]), OrderDate(row), true);
    }
  }

  /** The columns fetchLatestOrders selects. */
  datatype LatestOrder = LatestOrder(amount: real, name: string, image_url: string, email: string, id: string)

  /** fetchLatestOrders. */
  function FetchLatestOrders(orders: seq<Order>, customers: seq<Customer>): (r: seq<LatestOrder>)
    ensures |r| <= 5
    ensures |r| == |LatestOrderRows(orders, customers)|
    ensures forall k :: 0 <= k < |r| ==>
      var row := LatestOrderRows(orders, customers)[k];
      r[k] == LatestOrder(row.amount, row.name, row.image_url, row.email, row.id)
  {
    var rows := LatestOrderRows(orders, customers);
    seq(|rows|, k requires 0 <= k < |rows| => LatestOrder(rows[k].amount, rows[k].name, rows[k].image_url, rows[k].email, rows[k].id))
  }

  // ---------------------------------------------------------------- card data

  /** `SUM(CASE WHEN status = s THEN amount ELSE 0 END)`; an empty table sums to NULL,
      which `?? '0'` reads as 0. */
  function SumWhere(orders: seq<Order>, s: OrderStatus): real
  {
    if orders == [] then 0.0
    else (if orders[0].status == s then orders[0].amount else 0.0) + SumWhere(orders[1..], s)
  }

  function SumAmounts(orders: seq<Order>): real
  {
    if orders == [] then 0.0 else orders[0].amount + SumAmounts(orders[1..])
  }

  /** Every order is pending or paid, so the two sums make up the whole. */
  lemma {:induction false} StatusSumsAddUp(orders: seq<Order>)
    ensures SumWhere(orders, Paid) + SumWhere(orders, Pending) == SumAmounts(orders)
  {
    if orders != [] {
      StatusSumsAddUp(orders[1..]);
    }
  }

  /** With the strictly positive amounts createOrder stores, a status sum is zero
      exactly when no order has that status. */
  lemma {:induction false} SumWhereZero(orders: seq<Order>, s: OrderStatus)
    requires forall o :: o in orders ==> o.amount > 0.0
    ensures SumWhere(orders, s) >= 0.0
    ensures SumWhere(orders, s) == 0.0 <==> forall o :: o in orders ==> o.status != s
  {
    if orders != [] {
      assert forall o :: o in orders[1..] ==> o in orders;
      SumWhereZero(orders[1..], s);
      assert forall o :: o in orders <==> o == orders[0] || o in orders[1..];
    }
  }

  datatype CardData = CardData(
    numberOfCustomers: nat,
    numberOfOrders: nat,
    totalPaidOrders: real,
    totalPendingOrders: real)

  /** fetchCardData, before formatCurrency. */
  function FetchCardData(orders: seq<Order>, customers: seq<Customer>): (d: CardData)
    ensures d.numberOfOrders == |orders| && d.numberOfCustomers == |customers|
    ensures d.totalPaidOrders + d.totalPendingOrders == SumAmounts(orders)
    ensures (forall o :: o in orders ==> o.amount > 0.0) ==>
      (d.totalPaidOrders == 0.0 <==> forall o :: o in orders ==> o.status != Paid)
  {
    StatusSumsAddUp(orders);
    PaidSumZero(orders);
    CardData(|customers|, |orders|, SumWhere(orders, Paid), SumWhere(orders, Pending))
  }

  lemma PaidSumZero(orders: seq<Order>)
    ensures (forall o :: o in orders ==> o.amount > 0.0) ==>
      (SumWhere(orders, Paid) == 0.0 <==> forall o :: o in orders ==> o.status != Paid)
  {
    if forall o :: o in orders ==> o.amount > 0.0 {
      SumWhereZero(orders, Paid);
    }
  }

  // ---------------------------------------------------------------- customers

  /** A row of fetchFilteredCustomers, before formatCurrency. */
  datatype CustomersTableRow = CustomersTableRow(
    id: string,
    name: string,
    email: string,
    image_url: string,
    total_orders: nat,
    total_pending: real,
    total_paid: real)

  function OrdersOf(customerId: string, orders: seq<Order>): seq<Order>
  {
    Filter(orders, (o: Order) => o.customer_id == customerId)
  }

  /** One group of `customers LEFT JOIN orders ... GROUP BY customers.id`. A customer
      without orders keeps one row with NULL order columns: COUNT(orders.id) is 0 and
      both CASE sums are 0. */
  function CustomerRow(c: Customer, orders: seq<Order>): (r: CustomersTableRow)
    ensures r.id == c.id && r.name == c.name && r.email == c.email && r.image_url == c.image_url
    ensures r.total_orders == |OrdersOf(c.id, orders)|
    ensures r.total_pending == SumWhere(OrdersOf(c.id, orders), Pending)
    ensures r.total_paid == SumWhere(OrdersOf(c.id, orders), Paid)
    ensures r.total_orders == 0 <==> forall o :: o in orders ==> o.customer_id != c.id
    ensures r.total_orders == 0 ==> r.total_pending == 0.0 && r.total_paid == 0.0
    ensures r.total_pending + r.total_paid == SumAmounts(OrdersOf(c.id, orders))
  {
    var mine := OrdersOf(c.id, orders);
    StatusSumsAddUp(mine);
    assert |mine| > 0 ==> mine[0] in mine;
    CustomersTableRow(c.id, c.name, c.email, c.image_url, |mine|, SumWhere(mine, Pending), SumWhere(mine, Paid))
  }

  /** The WHERE of fetchFilteredCustomers and fetchCustomersPages. It reads only
      customer columns, so filtering before or after the join gives the same groups. */
  predicate CustomerMatches(query: string, c: Customer)
  {
    var p := ContainsPattern(query);
    ILike(c.name, p) || ILike(c.email, p)
  }

  function CustomerMatcher(query: string): Customer -> bool
  {
    c => CustomerMatches(query, c)
  }

  lemma CustomerMatchIsSubstring(query: string, c: Customer)
    requires NoWildcards(query)
    ensures CustomerMatches(query, c) <==>
      OccursIn(Lower(query), Lower(c.name)) || OccursIn(Lower(query), Lower(c.email))
  {
    ILikeIsCaseInsensitiveSubstring(query, c.name);
    ILikeIsCaseInsensitiveSubstring(query, c.email);
  }

  function CustomerName(c: Customer): string
  {
    c.name
  }

  /** The groups of `GROUP BY customers.id`, one per customer: `customers.id` is the
      primary key, so no two customers share an id. */
  function CustomerRows(cs: seq<Customer>, orders: seq<Order>): (r: seq<CustomersTableRow>)
    ensures |r| == |cs|
    ensures forall k :: 0 <= k < |cs| ==> r[k] == CustomerRow(cs[k], orders)
  {
    seq(|cs|, k requires 0 <= k < |cs| => CustomerRow(cs[k], orders))
  }

  /** Every matching customer's group, by name, before LIMIT and OFFSET. */
  function FilteredCustomers(query: string, customers: seq<Customer>, orders: seq<Order>): seq<CustomersTableRow>
  {
    CustomerRows(SortBy(Filter(customers, CustomerMatcher(query)), CustomerName, false), orders)
  }

  /** fetchFilteredCustomers: one page of the matching customers' groups, by name. */
  function FetchFilteredCustomers(query: string, customers: seq<Customer>, orders: seq<Order>, currentPage: int)
    : (r: Option<seq<CustomersTableRow>>)
    ensures r.Some? <==> currentPage >= 1
    ensures r.Some? ==> |r.value| <= ITEMS_PER_PAGE
    ensures r.Some? ==> forall row :: row in r.value ==>
      exists c :: c in customers && CustomerMatches(query, c) && row == CustomerRow(c, orders)
    ensures r.Some? ==> forall i, j :: 0 <= i < j < |r.value| ==> StrLe(r.value[i].name, r.value[j].name)
  {
    var matching := Filter(customers, CustomerMatcher(query));
    var sorted := SortBy(matching, CustomerName, false);
    SortByCorrect(matching, CustomerName, false);
    var rows := CustomerRows(sorted, orders);
    if currentPage >= 1 then
      CustomerPageFacts(query, customers, orders, sorted, rows, currentPage);
      Page(rows, currentPage)
    else
      Page(rows, currentPage)
  }

  /** A page of the grouped customers holds only groups of matching customers, in
      name order. */
  lemma CustomerPageFacts(query: string, customers: seq<Customer>, orders: seq<Order>,
                          sorted: seq<Customer>, rows: seq<CustomersTableRow>, currentPage: int)
    requires multiset(sorted) == multiset(Filter(customers, CustomerMatcher(query)))
    requires SortedBy(sorted, CustomerName, false)
    requires rows == CustomerRows(sorted, orders)
    requires currentPage >= 1
    ensures forall row :: row in Page(rows, currentPage).value ==>
      exists c :: c in customers && CustomerMatches(query, c) && row == CustomerRow(c, orders)
    ensures forall i, j :: 0 <= i < j < |Page(rows, currentPage).value| ==>
      StrLe(Page(rows, currentPage).value[i].name, Page(rows, currentPage).value[j].name)
  {
    CustomerPageMatches(query, customers, orders, sorted, rows, currentPage);
    CustomerPageByName(orders, sorted, rows, currentPage);
  }

  /** Each group on a page is the group of a customer that matches the query. */
  lemma CustomerPageMatches(query: string, customers: seq<Customer>, orders: seq<Order>,
                            sorted: seq<Customer>, rows: seq<CustomersTableRow>, currentPage: int)
    requires multiset(sorted) == multiset(Filter(customers, CustomerMatcher(query)))
    requires rows == CustomerRows(sorted, orders)
    requires currentPage >= 1
    ensures forall row :: row in Page(rows, currentPage).value ==>
      exists c :: c in customers && CustomerMatches(query, c) && row == CustomerRow(c, orders)
  {
    var p := Page(rows, currentPage).value;
    var off := Offset(currentPage);
    var matching := Filter(customers, CustomerMatcher(query));
    forall k | 0 <= k < |p|
      ensures p[k] == CustomerRow(sorted[off + k], orders)
      ensures sorted[off + k] in customers && CustomerMatches(query, sorted[off + k])
    {
      assert sorted[off + k] in multiset(matching);
      assert sorted[off + k] in matching;
    }
    forall row | row in p
      ensures exists c :: c in customers && CustomerMatches(query, c) && row == CustomerRow(c, orders)
    {
      var k :| 0 <= k < |p| && p[k] == row;
      assert sorted[off + k] in customers;
    }
  }

  /** A page of the groups of customers sorted by name is in name order. */
  lemma CustomerPageByName(orders: seq<Order>, sorted: seq<Customer>, rows: seq<CustomersTableRow>, currentPage: int)
    requires SortedBy(sorted, CustomerName, false)
    requires rows == CustomerRows(sorted, orders)
    requires currentPage >= 1
    ensures forall i, j :: 0 <= i < j < |Page(rows, currentPage).value| ==>
      StrLe(Page(rows, currentPage).value[i].name, Page(rows, currentPage).value[j].name)
  {
    var p := Page(rows, currentPage).value;
    var off := Offset(currentPage);
    forall i, j | 0 <= i < j < |p| ensures StrLe(p[i].name, p[j].name) {
      assert p[i] == CustomerRow(sorted[off + i], orders) && p[j] == CustomerRow(sorted[off + j], orders);
      assert InOrder(CustomerName(sorted[off + i]), CustomerName(sorted[off + j]), false);
    }
  }

  /** fetchCustomersPages: COUNT(*) over the customers that match, with no join. */
  function FetchCustomersPages(query: string, customers: seq<Customer>): (pages: nat)
    ensures var count := |Filter(customers, CustomerMatcher(query))|;
      && pages * ITEMS_PER_PAGE >= count
      && (count > 0 ==> (pages - 1) * ITEMS_PER_PAGE < count)
      && (pages == 0 <==> count == 0)
  {
    TotalPages(|Filter(customers, CustomerMatcher(query))|)
  }

  /** The grouped query has one row per matching customer, so the page count taken
      without the join covers exactly the rows of the pages. */
  lemma CustomerPagesCoverGroups(query: string, customers: seq<Customer>, orders: seq<Order>)
    ensures FetchCustomersPages(query, customers) == TotalPages(|FilteredCustomers(query, customers, orders)|)
  {
    SortByLength(Filter(customers, CustomerMatcher(query)), CustomerName, false);
  }

  // ---------------------------------------------------------------- products

  /** The WHERE of fetchFilteredProducts and fetchProductsPages. A NULL expiry or
      status makes its ILIKE NULL, which never selects a row. */
  predicate ProductMatches(query: string, cast: TextCast, p: Product)
  {
    var pat := ContainsPattern(query);
    || ILike(p.id, pat)
    || ILike(p.name, pat)
    || ILike(p.category, pat)
    || ILike(cast.number(p.stock), pat)
    || (p.expiry.Some? && ILike(cast.timestamp(p.expiry.value), pat))
    || ILike(cast.number(p.price), pat)
    || (p.status.Some? && ILike(StockStatusText(p.status.value), pat))
  }

  function ProductMatcher(query: string, cast: TextCast): Product -> bool
  {
    p => ProductMatches(query, cast, p)
  }

  lemma ProductMatchIsSubstring(query: string, cast: TextCast, p: Product)
    requires NoWildcards(query)
    ensures ProductMatches(query, cast, p) <==>
      || OccursIn(Lower(query), Lower(p.id))
      || OccursIn(Lower(query), Lower(p.name))
      || OccursIn(Lower(query), Lower(p.category))
      || OccursIn(Lower(query), Lower(cast.number(p.stock)))
      || (p.expiry.Some? && OccursIn(Lower(query), Lower(cast.timestamp(p.expiry.value))))
      || OccursIn(Lower(query), Lower(cast.number(p.price)))
      || (p.status.Some? && OccursIn(Lower(query), Lower(StockStatusText(p.status.value))))
  {
    ILikeIsCaseInsensitiveSubstring(query, p.id);
    ILikeIsCaseInsensitiveSubstring(query, p.name);
    ILikeIsCaseInsensitiveSubstring(query, p.category);
    ILikeIsCaseInsensitiveSubstring(query, cast.number(p.stock));
    if p.expiry.Some? {
      ILikeIsCaseInsensitiveSubstring(query, cast.timestamp(p.expiry.value));
    }
    ILikeIsCaseInsensitiveSubstring(query, cast.number(p.price));
    if p.status.Some? {
      ILikeIsCaseInsensitiveSubstring(query, StockStatusText(p.status.value));
    }
  }

  /** The empty search matches every product, even one with NULL columns. */
  lemma EmptyQueryMatchesEveryProduct(cast: TextCast, p: Product)
    ensures ProductMatches("", cast, p)
  {
    EmptyQueryMatchesAll(p.id);
  }

  function ProductName(p: Product): string
  {
    p.name
  }

  /** Every matching product, by name descending, before LIMIT and OFFSET. */
  function FilteredProducts(query: string, cast: TextCast, products: seq<Product>): seq<Product>
  {
    SortBy(Filter(products, ProductMatcher(query, cast)), ProductName, true)
  }

  /** fetchFilteredProducts. */
  function FetchFilteredProducts(query: string, cast: TextCast, products: seq<Product>, currentPage: int)
    : (r: Option<seq<Product>>)
    ensures r.Some? <==> currentPage >= 1
    ensures r.Some? ==> |r.value| <= ITEMS_PER_PAGE
    ensures r.Some? ==> forall p :: p in r.value ==> p in products && ProductMatches(query, cast, p)
    ensures r.Some? ==> SortedBy(r.value, ProductName, true)
  {
    if currentPage >= 1 then
      SortedPageFacts(Filter(products, ProductMatcher(query, cast)), ProductName, true, currentPage);
      Page(FilteredProducts(query, cast, products), currentPage)
    else
      Page(FilteredProducts(query, cast, products), currentPage)
  }

  /** fetchProductsPages. */
  function FetchProductsPages(query: string, cast: TextCast, products: seq<Product>): (pages: nat)
    ensures var count := |Filter(products, ProductMatcher(query, cast))|;
      && pages * ITEMS_PER_PAGE >= count
      && (count > 0 ==> (pages - 1) * ITEMS_PER_PAGE < count)
      && (pages == 0 <==> count == 0)
  {
    TotalPages(|Filter(products, ProductMatcher(query, cast))|)
  }

  /** For a fixed order of ties, the same in every query, every matching product is
      on one of the pages the count announces. */
  lemma ProductsPagesCoverMatches(query: string, cast: TextCast, products: seq<Product>, p: Product)
    requires p in products && ProductMatches(query, cast, p)
    ensures exists page ::
      1 <= page <= FetchProductsPages(query, cast, products)
      && p in FetchFilteredProducts(query, cast, products, page).value
  {
    var all := Filter(products, ProductMatcher(query, cast));
    var sorted := FilteredProducts(query, cast, products);
    SortByCorrect(all, ProductName, true);
    SortByLength(all, ProductName, true);
    assert p in multiset(sorted);
    var k :| 0 <= k < |sorted| && sorted[k] == p;
    PagesCoverRows(sorted, k);
    var page := k / ITEMS_PER_PAGE + 1;
    assert p in FetchFilteredProducts(query, cast, products, page).value;
  }

  // ---------------------------------------------------------------- first row by id

  /** `rows[0]` of `WHERE id = ${id}`: the first row in scan order with that id. */
  function FirstWithId<T>(rows: seq<T>, id: string, idOf: T -> string): (r: Option<T>)
    ensures r.Some? <==> exists i :: 0 <= i < |rows| && idOf(rows[i]) == id
    ensures r.Some? ==> exists i ::
      0 <= i < |rows| && rows[i] == r.value && idOf(rows[i]) == id
      && forall j :: 0 <= j < i ==> idOf(rows[j]) != id
  {
    if rows == [] then None
    else if idOf(rows[0]) == id then Some(rows[0])
    else
      var r := FirstWithId(rows[1..], id, idOf);
      assert forall i :: 0 < i < |rows| ==> rows[i] == rows[1..][i - 1];
      r
  }

  // ---------------------------------------------------------------- uuid input

  predicate HexDigit(ch: char)
  {
    '0' <= ch <= '9' || 'a' <= ch <= 'f' || 'A' <= ch <= 'F'
  }

  /** The bytes `i` to 15 of a uuid literal, as PostgreSQL's uuid input reads them: two
      hex digits per byte, and one hyphen allowed after every second byte except the
      last. Nothing may follow the sixteenth byte. */
  predicate UuidBytes(s: string, i: nat)
    requires i <= 16
    decreases 16 - i
  {
    if i == 16 then s == []
    else
      && |s| >= 2 && HexDigit(s[0]) && HexDigit(s[1])
      && var rest := s[2..];
         if rest != [] && rest[0] == '-' && i % 2 == 1 && i < 15 then UuidBytes(rest[1..], i + 1)
         else UuidBytes(rest, i + 1)
  }

  /** The texts a `uuid` column accepts: the sixteen bytes, optionally inside braces.
      Any other text makes the statement fail with an invalid-input error. */
  predicate UuidText(s: string)
  {
    if s != [] && s[0] == '{' then |s| >= 2 && s[|s| - 1] == '}' && UuidBytes(s[1..|s| - 1], 0)
    else UuidBytes(s, 0)
  }

  /** The standard spelling 8-4-4-4-12 that uuidv4 and uuid_generate_v4 produce. */
  predicate StandardUuid(s: string)
  {
    && |s| == 36
    && forall k :: 0 <= k < 36 ==>
         if k == 8 || k == 13 || k == 18 || k == 23 then s[k] == '-' else HexDigit(s[k])
  }

  /** Where byte `i` starts in the standard spelling. */
  function StandardPos(i: nat): nat
  {
    2 * i + (if i >= 4 then 1 else 0) + (if i >= 6 then 1 else 0)
      + (if i >= 8 then 1 else 0) + (if i >= 10 then 1 else 0)
  }

  lemma {:induction false} StandardBytes(s: string, i: nat)
    requires StandardUuid(s) && i <= 16
    ensures StandardPos(i) <= 36
    ensures UuidBytes(s[StandardPos(i)..], i)
    decreases 16 - i
  {
    if i < 16 {
      StandardBytes(s, i + 1);
      var at := StandardPos(i);
      var t := s[at..];
      assert HexDigit(t[0]) && HexDigit(t[1]) by {
        assert t[0] == s[at] && t[1] == s[at + 1];
      }
      var rest := t[2..];
      assert rest == s[at + 2..];
      if i == 3 || i == 5 || i == 7 || i == 9 {
        assert rest[0] == s[at + 2] == '-';
        assert rest[1..] == s[StandardPos(i + 1)..];
      } else {
        assert rest == s[StandardPos(i + 1)..];
        assert rest != [] ==> rest[0] == s[at + 2] && HexDigit(rest[0]);
      }
    }
  }

  /** Every id in the standard spelling is accepted by a uuid column. */
  lemma StandardUuidIsAccepted(s: string)
    requires StandardUuid(s)
    ensures UuidText(s)
  {
    StandardBytes(s, 0);
    assert s[StandardPos(0)..] == s;
    assert s[0] != '{' by {
      assert HexDigit(s[0]);
    }
  }

  /** An id that is not a uuid, as in the path /dashboard/orders/abc/edit. */
  lemma ShortIdIsRejected()
    ensures !UuidText("abc")
  {
    assert "abc"[2..] == "c";
  }

  // ---------------------------------------------------------------- lookups by id

  /** The columns fetchOrderById selects, with the amount turned back into dollars. */
  datatype OrderFormRow = OrderFormRow(id: string, customer_id: string, amount: real, status: OrderStatus)

  function OrderId(o: Order): string
  {
    o.id
  }

  /** fetchOrderById: the first order with that id, its cents divided by 100; an
      unknown id gives `undefined`. An id that is not a uuid makes the query fail, and
      the function throws. */
  function FetchOrderById(id: string, orders: seq<Order>): (r: Result<Option<OrderFormRow>, string>)
    ensures r.Failure? <==> !UuidText(id)
    ensures r.Failure? ==> r.error == "Failed to fetch order."
    ensures r.Success? ==> (r.value.Some? <==> exists o :: o in orders && o.id == id)
    ensures r.Success? && r.value.Some? ==> exists o ::
      o in orders && o.id == id
      && r.value.value == OrderFormRow(o.id, o.customer_id, o.amount / 100.0, o.status)
  {
    if !UuidText(id) then Failure("Failed to fetch order.")
    else
      match FirstWithId(orders, id, OrderId)
      case Some(o) => Success(Some(OrderFormRow(o.id, o.customer_id, o.amount / 100.0, o.status)))
      case None => Success(None)
  }

  function ProductId(p: Product): string
  {
    p.id
  }

  /** fetchProductById as written: the first product with that id, its price divided
      by 100 as though it were stored in cents; a non-uuid id throws. */
  function FetchProductByIdAsWritten(id: string, products: seq<Product>): (r: Result<Option<Product>, string>)
    ensures r.Failure? <==> !UuidText(id)
    ensures r.Failure? ==> r.error == "Failed to fetch product."
    ensures r.Success? ==> (r.value.Some? <==> exists p :: p in products && p.id == id)
    ensures r.Success? && r.value.Some? ==> exists p ::
      p in products && p.id == id && r.value.value == p.(price := p.price / 100.0)
  {
    if !UuidText(id) then Failure("Failed to fetch product.")
    else
      match FirstWithId(products, id, ProductId)
      case Some(p) => Success(Some(p.(price := p.price / 100.0)))
      case None => Success(None)
  }

  /** fetchProductById without the division: createProduct stores the price in dollars. */
  function FetchProductById(id: string, products: seq<Product>): (r: Result<Option<Product>, string>)
    ensures r.Failure? <==> !UuidText(id)
    ensures r.Failure? ==> r.error == "Failed to fetch product."
    ensures r.Success? ==> (r.value.Some? <==> exists p :: p in products && p.id == id)
    ensures r.Success? && r.value.Some? ==> r.value.value in products && r.value.value.id == id
  {
    if !UuidText(id) then Failure("Failed to fetch product.")
    else Success(FirstWithId(products, id, ProductId))
  }
}
