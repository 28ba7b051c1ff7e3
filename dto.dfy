/** The catalogue builder: each row of the grocery CSV becomes one record in the
    `products` list and one in the list of its category, both appended in place; the
    values it draws from Math.random, uuidv4 and faker are inputs here. */
module Dto {
  import opened Wrappers
  import opened Definitions

  /** The three CSV columns the row body reads: Title, Price and SubCategory. */
  datatype CsvRow = CsvRow(title: string, price: string, subCategory: string)

  /** `Math.floor(Math.random() * 1000)`. */
  type Stock = n: int | 0 <= n <= 999

  /** What one row draws: its stock, its uuid, and faker's expiry date. */
  datatype Generated = Generated(stock: Stock, id: string, expiry: Timestamp)

  /** A record of `products`. The price is None where parseInt gave NaN; the expiry
      is None where the record holds `expiry: null`. */
  datatype CatalogProduct = CatalogProduct(
    id: string,
    name: string,
    stock: int,
    price: Option<int>,
    status: StockStatus,
    category: string,
    expiry: Option<Timestamp>)

  /** A record of one category's list: no category field, and for cleaning, floral
      and household no expiry field either (None). */
  datatype CategoryRecord = CategoryRecord(
    id: string,
    name: string,
    stock: int,
    price: Option<int>,
    status: StockStatus,
    expiry: Option<Timestamp>)

  // ---------------------------------------------------------------- status

  /** `stock > 0 ? 'in-stock' : 'out-of-stock'`. */
  function StatusOf(stock: int): (s: StockStatus)
    ensures s == InStock <==> stock > 0
    ensures StockStatusText(s) == (if stock > 0 then "in-stock" else "out-of-stock")
  {
    if stock > 0 then InStock else OutOfStock
  }

  // ---------------------------------------------------------------- price

  /** The characters JavaScript's parseInt skips before the number: the ASCII
      whitespace and line terminators, no-break space and the byte order mark. */
  predicate IsJsSpace(c: char)
  {
    || c == ' ' || c == '\t' || c == '\n' || c == '\r' || c == '\U{000B}' || c == '\U{000C}'
    || c == '\U{00A0}' || c == '\U{FEFF}' || c == '\U{2028}' || c == '\U{2029}'
  }

  predicate IsDigit(c: char)
  {
    '0' <= c <= '9'
  }

  function TrimStart(s: string): (t: string)
    ensures t <= s || (|t| <= |s| && t == s[|s| - |t|..])
    ensures t == [] || !IsJsSpace(t[0])
  {
    if s != [] && IsJsSpace(s[0]) then TrimStart(s[1..]) else s
  }

  /** The longest run of decimal digits at the start of `s`. */
  function DigitRun(s: string): (d: string)
    ensures d <= s
    ensures forall i :: 0 <= i < |d| ==> IsDigit(d[i])
    ensures |d| < |s| ==> !IsDigit(s[|d|])
  {
    if s != [] && IsDigit(s[0]) then [s[0]] + DigitRun(s[1..]) else []
  }

  /** The number a run of decimal digits denotes, read from the left. */
  function DigitsValue(d: string): nat
    requires forall i :: 0 <= i < |d| ==> IsDigit(d[i])
  {
    if d == [] then 0
    else
      assert IsDigit(d[|d| - 1]);
      DigitsValue(d[..|d| - 1]) * 10 + (d[|d| - 1] as int - '0' as int)
  }

  /** `parseInt(s, 10)`: skip leading white space, read an optional sign and then as
      many decimal digits as follow; NaN (None) when no digit follows. */
  function ParseInt(s: string): (r: Option<int>)
    ensures var t := TrimStart(s);
      var body := if t != [] && (t[0] == '+' || t[0] == '-') then t[1..] else t;
      r.None? <==> body == [] || !IsDigit(body[0])
  {
    var t := TrimStart(s);
    var negative := t != [] && t[0] == '-';
    var body := if t != [] && (t[0] == '+' || t[0] == '-') then t[1..] else t;
    var digits := DigitRun(body);
    var magnitude: int := DigitsValue(digits);
    if digits == [] then None
    else if negative then Some(-magnitude)
    else Some(magnitude)
  }

  /** `parseInt(r.Price.slice(1), 10)`: the price without its first character, the
      currency sign. */
  function ParsePrice(price: string): Option<int>
  {
    ParseInt(if price == [] then [] else price[1..])
  }

  function DigitChar(n: nat): char
    requires n < 10
  {
    ('0' as int + n) as char
  }

  /** The decimal text of a whole number, without leading zeros. */
  function DecimalText(n: nat): (d: string)
    ensures d != [] && forall i :: 0 <= i < |d| ==> IsDigit(d[i])
  {
    if n < 10 then [DigitChar(n)] else DecimalText(n / 10) + [DigitChar(n % 10)]
  }

  lemma {:induction false} DigitsValueOfDecimalText(n: nat)
    ensures DigitsValue(DecimalText(n)) == n
  {
    if n >= 10 {
      var d := DecimalText(n);
      assert d[..|d| - 1] == DecimalText(n / 10);
      DigitsValueOfDecimalText(n / 10);
    }
  }

  lemma {:induction false} DigitRunStopsAtNonDigit(d: string, rest: string)
    requires forall i :: 0 <= i < |d| ==> IsDigit(d[i])
    requires rest == [] || !IsDigit(rest[0])
    ensures DigitRun(d + rest) == d
  {
    if d != [] {
      assert (d + rest)[1..] == d[1..] + rest;
      DigitRunStopsAtNonDigit(d[1..], rest);
    } else {
      assert d + rest == rest;
    }
  }

  /** A price written `$` followed by the dollars, a point and the cents parses as
      the whole dollars: the fraction is dropped. */
  lemma ParsePriceOfDollars(dollars: nat, cents: string)
    ensures ParsePrice("$" + DecimalText(dollars) + "." + cents) == Some(dollars)
  {
    var d := DecimalText(dollars);
    var t := d + ("." + cents);
    assert ("$" + d + "." + cents)[1..] == t;
    assert t[0] == d[0] && IsDigit(t[0]);
    assert TrimStart(t) == t;
    DigitRunStopsAtNonDigit(d, "." + cents);
    DigitsValueOfDecimalText(dollars);
  }

  /** A price whose text after the first character holds no number is NaN. */
  lemma ParsePriceWithoutNumber(sign: char, text: string)
    requires text == [] || (!IsDigit(text[0]) && !IsJsSpace(text[0]) && text[0] != '+' && text[0] != '-')
    ensures ParsePrice([sign] + text).None?
  {
    assert ([sign] + text)[1..] == text;
  }

  // ---------------------------------------------------------------- categories

  /** The SubCategory text each `if` of the row body compares against. */
  function SubCategoryTag(c: Category): string
  {
    match c
    case Snacks => "Snacks"
    case Pantry => "Pantry & Dry Goods"
    case Candy => "Candy"
    case Beverages => "Beverages & Water"
    case MeatAndSeafood => "Meat & Seafood"
    case BakeryAndDesserts => "Bakery & Desserts"
    case Breakfast => "Breakfast"
    case Coffee => "Coffee"
    case Deli => "Deli"
    case Organic => "Organic"
    case Cleaning => "Cleaning Supplies"
    case Floral => "Floral"
    case Household => "Household"
  }

  /** The category whose `if` a SubCategory enters, if any. */
  function CategoryOfSubCategory(s: string): (r: Option<Category>)
    ensures r.Some? ==> SubCategoryTag(r.value) == s
  {
    if s == "Snacks" then Some(Snacks)
    else if s == "Pantry & Dry Goods" then Some(Pantry)
    else if s == "Candy" then Some(Candy)
    else if s == "Beverages & Water" then Some(Beverages)
    else if s == "Meat & Seafood" then Some(MeatAndSeafood)
    else if s == "Bakery & Desserts" then Some(BakeryAndDesserts)
    else if s == "Breakfast" then Some(Breakfast)
    else if s == "Coffee" then Some(Coffee)
    else if s == "Deli" then Some(Deli)
    else if s == "Organic" then Some(Organic)
    else if s == "Cleaning Supplies" then Some(Cleaning)
    else if s == "Floral" then Some(Floral)
    else if s == "Household" then Some(Household)
    else None
  }

  /** The thirteen `if`s test distinct texts, so a row enters at most one of them,
      and it enters one exactly when its SubCategory is one of the thirteen. */
  lemma SubCategoryEntersOneBranch(s: string)
    ensures forall c1: Category, c2: Category :: SubCategoryTag(c1) == s && SubCategoryTag(c2) == s ==> c1 == c2
    ensures CategoryOfSubCategory(s).Some? <==> exists c: Category :: SubCategoryTag(c) == s
  {
    forall c: Category ensures CategoryOfSubCategory(SubCategoryTag(c)) == Some(c) {
      match c
      case Snacks => case Pantry => case Candy => case Beverages =>
      case MeatAndSeafood => case BakeryAndDesserts => case Breakfast =>
      case Coffee => case Deli => case Organic => case Cleaning =>
      case Floral => case Household =>
    }
  }

  // ---------------------------------------------------------------- one row

  /** The two records one accepted row appends, and the list the second goes to. */
  datatype RowOutput = RowOutput(product: CatalogProduct, category: Category, record: CategoryRecord)

  /** The row body. A row whose SubCategory is none of the thirteen appends nothing. */
  function RowRecords(row: CsvRow, g: Generated): Option<RowOutput>
  {
    match CategoryOfSubCategory(row.subCategory)
    case None => None
    case Some(c) =>
      var price := ParsePrice(row.price);
      var status := StatusOf(g.stock);
      var expiry := if Perishable(c) then Some(g.expiry) else None;
      Some(RowOutput(
        CatalogProduct(g.id, row.title, g.stock, price, status, CategoryTag(c), expiry),
        c,
        CategoryRecord(g.id, row.title, g.stock, price, status, expiry)))
  }

  /** What the row body appends: records for exactly the rows whose SubCategory is
      one of the thirteen, sharing the row's title, its parsed price and what the row
      drew; the ten perishable categories carry the expiry, the other three none. */
  lemma RowRecordsFacts(row: CsvRow, g: Generated)
    ensures RowRecords(row, g).Some? <==> exists c: Category :: SubCategoryTag(c) == row.subCategory
    ensures RowRecords(row, g).Some? ==> var o := RowRecords(row, g).value;
      && SubCategoryTag(o.category) == row.subCategory
      && o.product.category == CategoryTag(o.category)
      && o.product.id == o.record.id == g.id
      && o.product.name == o.record.name == row.title
      && o.product.stock == o.record.stock == g.stock
      && o.product.price == o.record.price == ParsePrice(row.price)
      && o.product.status == o.record.status
      && (o.product.status == InStock <==> g.stock > 0)
      && (Perishable(o.category) ==> o.product.expiry == o.record.expiry == Some(g.expiry))
      && (!Perishable(o.category) ==> o.product.expiry.None? && o.record.expiry.None?)
  {
    SubCategoryEntersOneBranch(row.subCategory);
  }

  // ---------------------------------------------------------------- the whole file

  /** What one row's output appends to `products`. */
  function ProductOf(out: Option<RowOutput>): seq<CatalogProduct>
  {
    match out
    case Some(o) => [o.product]
    case None => []
  }

  /** What one row's output appends to category `c`'s list. */
  function RecordOf(out: Option<RowOutput>, c: Category): seq<CategoryRecord>
  {
    match out
    case Some(o) => if o.category == c then [o.record] else []
    case None => []
  }

  /** The thirteen lists after one row's output is pushed to its category's list. */
  function Pushed(lists: map<Category, seq<CategoryRecord>>, out: Option<RowOutput>): map<Category, seq<CategoryRecord>>
  {
    match out
    case Some(o) => lists[o.category := (if o.category in lists then lists[o.category] else []) + [o.record]]
    case None => lists
  }

  /** The output of each row of the file, in row order. */
  function Outputs(rows: seq<CsvRow>, gen: seq<Generated>): (outs: seq<Option<RowOutput>>)
    requires |gen| == |rows|
    ensures |outs| == |rows|
    ensures forall i :: 0 <= i < |rows| ==> outs[i] == RowRecords(rows[i], gen[i])
  {
    seq(|rows|, i requires 0 <= i < |rows| => RowRecords(rows[i], gen[i]))
  }

  /** The `products` records of the first `n` rows, in row order. */
  function ProductsOf(outs: seq<Option<RowOutput>>, n: nat): seq<CatalogProduct>
    requires n <= |outs|
  {
    if n == 0 then [] else ProductsOf(outs, n - 1) + ProductOf(outs[n - 1])
  }

  /** The lists `start` after the first `n` rows are pushed, in row order. */
  function ListsOf(start: map<Category, seq<CategoryRecord>>, outs: seq<Option<RowOutput>>, n: nat): map<Category, seq<CategoryRecord>>
    requires n <= |outs|
  {
    if n == 0 then start else Pushed(ListsOf(start, outs, n - 1), outs[n - 1])
  }

  /** The records of category `c`'s list from the first `n` rows, in row order. */
  function ListOf(outs: seq<Option<RowOutput>>, n: nat, c: Category): seq<CategoryRecord>
    requires n <= |outs|
  {
    if n == 0 then [] else ListOf(outs, n - 1, c) + RecordOf(outs[n - 1], c)
  }

  /** How many of the first `n` rows have a SubCategory that is one of the thirteen. */
  function AcceptedRows(rows: seq<CsvRow>, n: nat): nat
    requires n <= |rows|
  {
    if n == 0 then 0
    else AcceptedRows(rows, n - 1) + (if CategoryOfSubCategory(rows[n - 1].subCategory).Some? then 1 else 0)
  }

  /** The thirteen list lengths, added up. */
  function ListsTotal(lists: map<Category, seq<CategoryRecord>>): nat
    requires forall c: Category :: c in lists
  {
    |lists[Snacks]| + |lists[Pantry]| + |lists[Candy]| + |lists[Beverages]|
    + |lists[MeatAndSeafood]| + |lists[BakeryAndDesserts]| + |lists[Breakfast]|
    + |lists[Coffee]| + |lists[Deli]| + |lists[Organic]| + |lists[Cleaning]|
    + |lists[Floral]| + |lists[Household]|
  }

  /** Appending to one list adds one to the total. */
  lemma ListsTotalAppend(lists: map<Category, seq<CategoryRecord>>, c: Category, x: CategoryRecord)
    requires forall c': Category :: c' in lists
    ensures ListsTotal(lists[c := lists[c] + [x]]) == ListsTotal(lists) + 1
  {
    var u := lists[c := lists[c] + [x]];
    assert |u[c]| == |lists[c]| + 1;
  }

  /** A row has an output exactly when its SubCategory enters one of the `if`s. */
  lemma RowAccepted(rows: seq<CsvRow>, gen: seq<Generated>, i: nat)
    requires |gen| == |rows| && i < |rows|
    ensures Outputs(rows, gen)[i].Some? <==> CategoryOfSubCategory(rows[i].subCategory).Some?
  {
    assert Outputs(rows, gen)[i] == RowRecords(rows[i], gen[i]);
  }

  /** One record in `products` per accepted row, and nothing for the others. */
  lemma {:induction false} ProductsCountAccepted(rows: seq<CsvRow>, gen: seq<Generated>, n: nat)
    requires |gen| == |rows| && n <= |rows|
    ensures |ProductsOf(Outputs(rows, gen), n)| == AcceptedRows(rows, n)
  {
    if n > 0 {
      ProductsCountAccepted(rows, gen, n - 1);
      RowAccepted(rows, gen, n - 1);
    }
  }

  /** Pushing rows keeps the thirteen keys, and each list grows by exactly the records
      of its own category, in row order. */
  lemma {:induction false} ListsOfPerCategory(start: map<Category, seq<CategoryRecord>>, outs: seq<Option<RowOutput>>, n: nat, c: Category)
    requires n <= |outs|
    requires forall c': Category :: c' in start
    ensures ListsOf(start, outs, n).Keys == start.Keys
    ensures ListsOf(start, outs, n)[c] == start[c] + ListOf(outs, n, c)
  {
    if n > 0 {
      ListsOfPerCategory(start, outs, n - 1, c);
      var prev := ListsOf(start, outs, n - 1);
      match outs[n - 1]
      case None =>
      case Some(o) =>
        assert o.category in prev;
    }
  }

  /** Every record of category `c`'s list is the record of an output of category `c`
      among the first `n`. */
  lemma {:induction false} ListEntryFrom(outs: seq<Option<RowOutput>>, n: nat, c: Category, k: nat)
    requires n <= |outs|
    requires k < |ListOf(outs, n, c)|
    ensures exists i ::
      0 <= i < n && outs[i].Some? && outs[i].value.category == c && ListOf(outs, n, c)[k] == outs[i].value.record
  {
    if k < |ListOf(outs, n - 1, c)| {
      ListEntryFrom(outs, n - 1, c, k);
    }
  }

  /** Every record of category `c`'s list is the list record of a row of that
      SubCategory, with that row's generated id. */
  lemma ListHoldsItsCategory(rows: seq<CsvRow>, gen: seq<Generated>, n: nat, c: Category, k: nat)
    requires |gen| == |rows| && n <= |rows|
    requires k < |ListOf(Outputs(rows, gen), n, c)|
    ensures exists i ::
      0 <= i < n && rows[i].subCategory == SubCategoryTag(c) && ListOf(Outputs(rows, gen), n, c)[k].id == gen[i].id
  {
    var outs := Outputs(rows, gen);
    ListEntryFrom(outs, n, c, k);
    var i :| 0 <= i < n && outs[i].Some? && outs[i].value.category == c && ListOf(outs, n, c)[k] == outs[i].value.record;
    RowRecordsFacts(rows[i], gen[i]);
  }

  /** Pushing output `i` extends the fold of the first `i` outputs to the first `i + 1`. */
  lemma FoldStep(
    outs: seq<Option<RowOutput>>, i: nat, out: Option<RowOutput>,
    start: seq<CatalogProduct>, before: seq<CatalogProduct>, after: seq<CatalogProduct>,
    startLists: map<Category, seq<CategoryRecord>>, beforeLists: map<Category, seq<CategoryRecord>>,
    afterLists: map<Category, seq<CategoryRecord>>)
    requires i < |outs| && outs[i] == out
    requires before == start + ProductsOf(outs, i) && after == before + ProductOf(out)
    requires beforeLists == ListsOf(startLists, outs, i) && afterLists == Pushed(beforeLists, out)
    ensures after == start + ProductsOf(outs, i + 1)
    ensures afterLists == ListsOf(startLists, outs, i + 1)
  {
  }

  /** The records appended to `products` and to the thirteen lists for a file. */
  class Catalog {
    var products: seq<CatalogProduct>
    var lists: map<Category, seq<CategoryRecord>>

    /** Every list exists, and `products` has exactly as many records as the lists together. */
    ghost predicate Valid()
      reads this
    {
      && (forall c: Category :: c in lists)
      && |products| == ListsTotal(lists)
    }

    /** The fourteen empty module-level arrays. */
    constructor ()
      ensures Valid()
      ensures products == []
      ensures forall c: Category :: lists[c] == []
    {
      products := [];
      lists := map[
        Snacks := [], Pantry := [], Candy := [], Beverages := [],
        MeatAndSeafood := [], BakeryAndDesserts := [], Breakfast := [],
        Coffee := [], Deli := [], Organic := [], Cleaning := [],
        Floral := [], Household := []];
      new;
      forall c: Category ensures c in lists {
        match c
        case Snacks => case Pantry => case Candy => case Beverages =>
        case MeatAndSeafood => case BakeryAndDesserts => case Breakfast =>
        case Coffee => case Deli => case Organic => case Cleaning =>
        case Floral => case Household =>
      }
    }

    /** The body of `result.map` for one row: one push to `products` and one to the
      list of the row's category, or nothing when no `if` matches. */
    method AddRow(row: CsvRow, g: Generated)
      requires Valid()
      modifies this
      ensures Valid()
      ensures products == old(products) + ProductOf(RowRecords(row, g))
      ensures lists == Pushed(old(lists), RowRecords(row, g))
    {
      var out := RowRecords(row, g);
      if out.Some? {
        var o := out.value;
        ListsTotalAppend(lists, o.category, o.record);
        products := products + [o.product];
        lists := lists[o.category := lists[o.category] + [o.record]];
      }
    }

    /** `result.map(r => { ... })` over the whole file; `gen[i]` is what row `i` draws. */
    method Load(rows: seq<CsvRow>, gen: seq<Generated>)
      requires Valid()
      requires |gen| == |rows|
      modifies this
      ensures Valid()
      ensures products == old(products) + ProductsOf(Outputs(rows, gen), |rows|)
      ensures lists == ListsOf(old(lists), Outputs(rows, gen), |rows|)
    {
      ghost var outs := Outputs(rows, gen);
      for i := 0 to |rows|
        invariant Valid()
        invariant products == old(products) + ProductsOf(outs, i)
        invariant lists == ListsOf(old(lists), outs, i)
      {
        ghost var before := products;
        ghost var beforeLists := lists;
        AddRow(rows[i], gen[i]);
        FoldStep(outs, i, RowRecords(rows[i], gen[i]), old(products), before, products, old(lists), beforeLists, lists);
      }
    }
  }

  /** Loading a file into empty arrays leaves `products` as long as the thirteen lists
      together, one record per accepted row, and each list holds its category's
      records in row order. */
  method LoadFile(rows: seq<CsvRow>, gen: seq<Generated>) returns (catalog: Catalog)
    requires |gen| == |rows|
    ensures catalog.Valid()
    ensures catalog.products == ProductsOf(Outputs(rows, gen), |rows|)
    ensures |catalog.products| == AcceptedRows(rows, |rows|)
    ensures forall c: Category :: catalog.lists[c] == ListOf(Outputs(rows, gen), |rows|, c)
  {
    catalog := new Catalog();
    ghost var start := catalog.lists;
    catalog.Load(rows, gen);
    ProductsCountAccepted(rows, gen, |rows|);
    forall c: Category
      ensures catalog.lists[c] == ListOf(Outputs(rows, gen), |rows|, c)
    {
      ListsOfPerCategory(start, Outputs(rows, gen), |rows|, c);
    }
  }
}
