/**
 The catalog upload: each validated row is added to the one item with the same identity, or becomes
 a new item.  Identities ignore case; the database folds the stored side of the comparison and
 Python the uploaded side, so both foldings are parameters.
 */
module CatalogUpsert {
  import opened Outcomes
  import opened Sums

  type Folding = string -> string

  datatype Product = Product(name: string, brand: string, weight: string, expiry: int)

  datatype Row = Row(product: Product, price: nat, quantity: nat)

  datatype Item = Item(product: Product, price: int, quantity: int, active: bool)

  datatype Found = Missing | One(index: nat) | Many

  function Identity(fold: Folding, p: Product): Product
  {
    Product(fold(p.name), fold(p.brand), fold(p.weight), p.expiry)
  }

  /** Name, brand and weight agree as the two sides fold them, and the expiry dates are the same. */
  ghost predicate Same(f: Folding, p: Product, g: Folding, q: Product)
  {
    f(p.name) == g(q.name) && f(p.brand) == g(q.brand) && f(p.weight) == g(q.weight) && p.expiry == q.expiry
  }

  lemma SameIdentityExactlyWhen(f: Folding, p: Product, g: Folding, q: Product)
    ensures Identity(f, p) == Identity(g, q) <==> Same(f, p, g, q)
  {
  }

  /** The select with `scalar_one_or_none`. */
  function Lookup(sql: Folding, items: seq<Item>, wanted: Product): (f: Found)
    ensures f.Missing? <==> forall k :: 0 <= k < |items| ==> Identity(sql, items[k].product) != wanted
    ensures f.One? ==> f.index < |items| && Identity(sql, items[f.index].product) == wanted
    ensures f.One? ==> forall k :: 0 <= k < |items| && Identity(sql, items[k].product) == wanted ==> k == f.index
    ensures f.Many? ==> OccursTwice(sql, items, wanted)
  {
    if items == [] then Missing
    else
      var n := |items| - 1;
      var rest := Lookup(sql, items[..n], wanted);
      if Identity(sql, items[n].product) != wanted then rest else if rest.Missing? then One(n) else Many
  }

  ghost predicate OccursTwice(sql: Folding, items: seq<Item>, wanted: Product)
  {
    exists j, k :: 0 <= j < k < |items| && Identity(sql, items[j].product) == Identity(sql, items[k].product) == wanted
  }

  function Fresh(row: Row): Item
  {
    Item(row.product, row.price, row.quantity, true)
  }

  function Topped(item: Item, row: Row): Item
  {
    item.(quantity := item.quantity + row.quantity, price := row.price, active := true)
  }

  function UpsertRow(sql: Folding, python: Folding, items: seq<Item>, row: Row): Option<seq<Item>>
  {
    match Lookup(sql, items, Identity(python, row.product))
    case Missing => Some(items + [Fresh(row)])
    case One(k) => Some(items[k := Topped(items[k], row)])
    case Many => None
  }

  /** The table after the rows, unless one of them finds two items. */
  function Upserted(sql: Folding, python: Folding, items: seq<Item>, rows: seq<Row>): Option<seq<Item>>
    decreases |rows|
  {
    if rows == [] then Some(items)
    else
      var n := |rows| - 1;
      var before := Upserted(sql, python, items, rows[..n]);
      if before.None? then None else UpsertRow(sql, python, before.value, rows[n])
  }

  /** `touched` names, row by row, the item each row went into. */
  ghost predicate AllTouch(sql: Folding, python: Folding, items: seq<Item>, rows: seq<Row>, touched: seq<nat>)
  {
    |touched| == |rows| && forall k :: 0 <= k < |rows| ==> Touches(sql, python, items, rows[k], touched[k])
  }

  ghost predicate Touches(sql: Folding, python: Folding, items: seq<Item>, row: Row, k: nat)
  {
    k < |items| && (Same(sql, items[k].product, python, row.product) || items[k].product == row.product)
  }

  lemma TouchesOn(sql: Folding, python: Folding, before: seq<Item>, after: seq<Item>, rows: seq<Row>, n: nat,
                  touched: seq<nat>, k: nat)
    requires n < |rows| && AllTouch(sql, python, before, rows[..n], touched)
    requires |before| <= |after| && forall j :: 0 <= j < |before| ==> after[j].product == before[j].product
    requires Touches(sql, python, after, rows[n], k)
    ensures AllTouch(sql, python, after, rows[..n + 1], touched + [k])
  {
    forall j | 0 <= j <= n ensures Touches(sql, python, after, rows[..n + 1][j], (touched + [k])[j]) {
      if j < n {
        assert Touches(sql, python, before, rows[..n][j], touched[j]);
      }
    }
  }

  lemma TouchesNew(sql: Folding, python: Folding, table: seq<Item>, rows: seq<Row>, n: nat, touched: seq<nat>)
    requires n < |rows| && AllTouch(sql, python, table, rows[..n], touched)
    ensures AllTouch(sql, python, table + [Fresh(rows[n])], rows[..n + 1], touched + [|table|])
  {
    TouchesOn(sql, python, table, table + [Fresh(rows[n])], rows, n, touched, |table|);
  }

  lemma TouchesKnown(sql: Folding, python: Folding, table: seq<Item>, rows: seq<Row>, n: nat, touched: seq<nat>, k: nat)
    requires n < |rows| && AllTouch(sql, python, table, rows[..n], touched)
    requires k < |table| && Identity(sql, table[k].product) == Identity(python, rows[n].product)
    ensures AllTouch(sql, python, table[k := Topped(table[k], rows[n])], rows[..n + 1], touched + [k])
  {
    SameIdentityExactlyWhen(sql, table[k].product, python, rows[n].product);
    TouchesOn(sql, python, table, table[k := Topped(table[k], rows[n])], rows, n, touched, k);
  }

  lemma OneMoreUpsert(sql: Folding, python: Folding, items: seq<Item>, rows: seq<Row>, n: nat, table: seq<Item>)
    requires n < |rows| && Upserted(sql, python, items, rows[..n]) == Some(table)
    ensures Upserted(sql, python, items, rows[..n + 1]) == UpsertRow(sql, python, table, rows[n])
  {
    assert rows[..n + 1][..n] == rows[..n];
  }

  /** The row at hand, and what the loop has to keep for it. */
  ghost predicate UpsertedSoFar(sql: Folding, python: Folding, items: seq<Item>, rows: seq<Row>, n: nat,
                                table: seq<Item>, touched: seq<nat>)
    requires n <= |rows|
  {
    Upserted(sql, python, items, rows[..n]) == Some(table) && AllTouch(sql, python, table, rows[..n], touched)
  }

  lemma InsertNext(sql: Folding, python: Folding, items: seq<Item>, rows: seq<Row>, n: nat, table: seq<Item>, touched: seq<nat>)
    requires n < |rows| && UpsertedSoFar(sql, python, items, rows, n, table, touched)
    requires Lookup(sql, table, Identity(python, rows[n].product)).Missing?
    ensures UpsertedSoFar(sql, python, items, rows, n + 1, table + [Fresh(rows[n])], touched + [|table|])
  {
    OneMoreUpsert(sql, python, items, rows, n, table);
    TouchesNew(sql, python, table, rows, n, touched);
  }

  lemma UpdateNext(sql: Folding, python: Folding, items: seq<Item>, rows: seq<Row>, n: nat, table: seq<Item>, touched: seq<nat>, k: nat)
    requires n < |rows| && UpsertedSoFar(sql, python, items, rows, n, table, touched)
    requires Lookup(sql, table, Identity(python, rows[n].product)) == One(k)
    ensures UpsertedSoFar(sql, python, items, rows, n + 1, table[k := Topped(table[k], rows[n])], touched + [k])
  {
    OneMoreUpsert(sql, python, items, rows, n, table);
    TouchesKnown(sql, python, table, rows, n, touched, k);
  }

  ghost predicate AnyRowFits(sql: Folding, python: Folding, item: Item, rows: seq<Row>, n: nat)
    requires n <= |rows|
  {
    exists j :: 0 <= j < n && Same(sql, item.product, python, rows[j].product)
  }

  ghost predicate FromRow(product: Product, rows: seq<Row>, n: nat)
    requires n <= |rows|
  {
    exists j :: 0 <= j < n && rows[j].product == product
  }

  /** Old items keep their product, and all of themselves unless a row fits them; new items are rows' products. */
  ghost predicate OnlyFittingChange(sql: Folding, python: Folding, items: seq<Item>, rows: seq<Row>, n: nat, table: seq<Item>)
    requires n <= |rows|
  {
    && |items| <= |table|
    && (forall k :: 0 <= k < |items| ==>
          table[k].product == items[k].product && (!AnyRowFits(sql, python, items[k], rows, n) ==> table[k] == items[k]))
    && forall k :: |items| <= k < |table| ==> FromRow(table[k].product, rows, n)
  }

  lemma MoreRowsFit(sql: Folding, python: Folding, item: Item, rows: seq<Row>, n: nat)
    requires n < |rows|
    ensures AnyRowFits(sql, python, item, rows, n + 1) <==>
            AnyRowFits(sql, python, item, rows, n) || Same(sql, item.product, python, rows[n].product)
    ensures FromRow(item.product, rows, n) ==> FromRow(item.product, rows, n + 1)
    ensures FromRow(rows[n].product, rows, n + 1)
  {
  }

  lemma InsertChangesNothing(sql: Folding, python: Folding, items: seq<Item>, rows: seq<Row>, n: nat, table: seq<Item>)
    requires n < |rows| && OnlyFittingChange(sql, python, items, rows, n, table)
    ensures OnlyFittingChange(sql, python, items, rows, n + 1, table + [Fresh(rows[n])])
  {
    var after := table + [Fresh(rows[n])];
    forall k | 0 <= k < |after|
      ensures k < |items| && !AnyRowFits(sql, python, items[k], rows, n + 1) ==> after[k] == items[k]
      ensures k >= |items| ==> FromRow(after[k].product, rows, n + 1)
    {
      MoreRowsFit(sql, python, if k < |items| then items[k] else after[k], rows, n);
    }
  }

  lemma UpdateChangesFitting(sql: Folding, python: Folding, items: seq<Item>, rows: seq<Row>, n: nat, table: seq<Item>, hit: nat)
    requires n < |rows| && OnlyFittingChange(sql, python, items, rows, n, table)
    requires hit < |table| && Identity(sql, table[hit].product) == Identity(python, rows[n].product)
    ensures OnlyFittingChange(sql, python, items, rows, n + 1, table[hit := Topped(table[hit], rows[n])])
  {
    var after := table[hit := Topped(table[hit], rows[n])];
    SameIdentityExactlyWhen(sql, table[hit].product, python, rows[n].product);
    forall k | 0 <= k < |after|
      ensures k < |items| && !AnyRowFits(sql, python, items[k], rows, n + 1) ==> after[k] == items[k]
      ensures k >= |items| ==> FromRow(after[k].product, rows, n + 1)
    {
      MoreRowsFit(sql, python, if k < |items| then items[k] else after[k], rows, n);
    }
  }

  lemma FailNext(sql: Folding, python: Folding, items: seq<Item>, rows: seq<Row>, n: nat, table: seq<Item>, touched: seq<nat>)
    requires n < |rows| && UpsertedSoFar(sql, python, items, rows, n, table, touched)
    requires Lookup(sql, table, Identity(python, rows[n].product)).Many?
    ensures Upserted(sql, python, items, rows).None?
  {
    OneMoreUpsert(sql, python, items, rows, n, table);
    StaysNone(sql, python, items, rows, n + 1);
  }

  class Catalog {
    const sql: Folding
    const python: Folding
    var items: seq<Item>

    /** Counts of inserted and updated rows and the touched items, or the error that rolls the upload back. */
    method UpsertCatalogRows(rows: seq<Row>) returns (r: Option<(nat, nat, seq<nat>)>)
      modifies this
      ensures r.None? <==> Upserted(sql, python, old(items), rows).None?
      ensures r.None? ==> items == old(items)
      ensures r.Some? ==>
                && Some(items) == Upserted(sql, python, old(items), rows)
                && r.value.0 + r.value.1 == |rows|
                && r.value.0 == |items| - |old(items)|
                && AllTouch(sql, python, items, rows, r.value.2)
                && OnlyFittingChange(sql, python, old(items), rows, |rows|, items)
    {
      var table;
      table, r := UpsertLoop(sql, python, items, rows);
      if r.Some? {
        items := table;
      }
    }
  }

  /** The loop over the rows, on a copy that replaces the table only if no row fails. */
  method UpsertLoop(sql: Folding, python: Folding, items: seq<Item>, rows: seq<Row>)
    returns (table: seq<Item>, r: Option<(nat, nat, seq<nat>)>)
    ensures r.None? <==> Upserted(sql, python, items, rows).None?
    ensures r.Some? ==> Some(table) == Upserted(sql, python, items, rows)
    ensures r.Some? ==> r.value.0 + r.value.1 == |rows| && r.value.0 == |table| - |items|
    ensures r.Some? ==> AllTouch(sql, python, table, rows, r.value.2)
    ensures r.Some? ==> OnlyFittingChange(sql, python, items, rows, |rows|, table)
  {
    var inserted, updated, touched: seq<nat> := 0, 0, [];
    table := items;
    for n := 0 to |rows|
      invariant UpsertedSoFar(sql, python, items, rows, n, table, touched)
      invariant OnlyFittingChange(sql, python, items, rows, n, table)
      invariant inserted + updated == n && inserted == |table| - |items|
    {
      var row := rows[n];
      match Lookup(sql, table, Identity(python, row.product)) {
        case Missing =>
          InsertNext(sql, python, items, rows, n, table, touched);
          InsertChangesNothing(sql, python, items, rows, n, table);
          touched := touched + [|table|];
          table := table + [Fresh(row)];
          inserted := inserted + 1;
        case One(k) =>
          UpdateNext(sql, python, items, rows, n, table, touched, k);
          UpdateChangesFitting(sql, python, items, rows, n, table, k);
          table := table[k := Topped(table[k], row)];
          updated := updated + 1;
          touched := touched + [k];
        case Many =>
          FailNext(sql, python, items, rows, n, table, touched);
          return table, None;
      }
    }
    assert rows[..|rows|] == rows;
    return table, Some((inserted, updated, touched));
  }

  lemma {:induction false} StaysNone(sql: Folding, python: Folding, items: seq<Item>, rows: seq<Row>, n: nat)
    requires n <= |rows| && Upserted(sql, python, items, rows[..n]).None?
    ensures Upserted(sql, python, items, rows).None?
    decreases |rows|
  {
    if n < |rows| {
      assert rows[..|rows| - 1][..n] == rows[..n];
      StaysNone(sql, python, items, rows[..|rows| - 1], n);
    } else {
      assert rows[..n] == rows;
    }
  }

  // ---------- what an upload adds up to ----------

  ghost function QuantityFor(sql: Folding, id: Product): Row -> int
  {
    (row: Row) => if Identity(sql, row.product) == id then row.quantity else 0
  }

  /** Everything the upload lists for one identity. */
  ghost function RowTotal(sql: Folding, rows: seq<Row>, id: Product): int
  {
    Sum(rows, QuantityFor(sql, id))
  }

  ghost predicate Listed(sql: Folding, rows: seq<Row>, id: Product)
  {
    exists k :: 0 <= k < |rows| && Identity(sql, rows[k].product) == id
  }

  /** The price in the last row for the identity, or `otherwise` when there is none. */
  ghost function LastPrice(sql: Folding, rows: seq<Row>, id: Product, otherwise: int): int
  {
    if rows == [] then otherwise
    else
      var n := |rows| - 1;
      if Identity(sql, rows[n].product) == id then rows[n].price else LastPrice(sql, rows[..n], id, otherwise)
  }

  ghost predicate Distinct(sql: Folding, items: seq<Item>)
  {
    forall j, k :: 0 <= j < k < |items| ==> Identity(sql, items[j].product) != Identity(sql, items[k].product)
  }

  /** Python and the database fold these rows alike. */
  ghost predicate FoldedAlike(sql: Folding, python: Folding, rows: seq<Row>)
  {
    forall k :: 0 <= k < |rows| ==> Identity(sql, rows[k].product) == Identity(python, rows[k].product)
  }

  /** `item` carries the total and the last price of its identity on top of `quantity` and `price`. */
  ghost predicate Carries(sql: Folding, rows: seq<Row>, item: Item, quantity: int, price: int, active: bool)
  {
    var id := Identity(sql, item.product);
    && item.quantity == quantity + RowTotal(sql, rows, id)
    && item.price == LastPrice(sql, rows, id, price)
    && item.active == (active || Listed(sql, rows, id))
  }

  /** Old items keep their place and product; each new identity has exactly one item, after them. */
  ghost predicate Merged(sql: Folding, items: seq<Item>, rows: seq<Row>, result: seq<Item>)
  {
    && |items| <= |result|
    && (forall k :: 0 <= k < |items| ==>
          result[k].product == items[k].product
          && Carries(sql, rows, result[k], items[k].quantity, items[k].price, items[k].active))
    && (forall k :: |items| <= k < |result| ==>
          Listed(sql, rows, Identity(sql, result[k].product)) && Carries(sql, rows, result[k], 0, 0, false))
    && (forall j, k :: 0 <= j < k < |result| && |items| <= k ==>
          Identity(sql, result[j].product) != Identity(sql, result[k].product))
    && (forall k :: 0 <= k < |rows| ==> Has(sql, result, Identity(sql, rows[k].product)))
  }

  ghost predicate Has(sql: Folding, items: seq<Item>, id: Product)
  {
    exists k :: 0 <= k < |items| && Identity(sql, items[k].product) == id
  }

  lemma OneMoreRow(sql: Folding, rows: seq<Row>, id: Product, otherwise: int)
    requires rows != []
    ensures var n := |rows| - 1;
            var hit := Identity(sql, rows[n].product) == id;
            && RowTotal(sql, rows, id) == RowTotal(sql, rows[..n], id) + (if hit then rows[n].quantity else 0)
            && LastPrice(sql, rows, id, otherwise) == (if hit then rows[n].price else LastPrice(sql, rows[..n], id, otherwise))
            && (Listed(sql, rows, id) <==> hit || Listed(sql, rows[..n], id))
  {
    var n := |rows| - 1;
    SumLast(rows, QuantityFor(sql, id));
    if Listed(sql, rows[..n], id) {
      var k :| 0 <= k < n && Identity(sql, rows[..n][k].product) == id;
      assert rows[k] == rows[..n][k];
    }
    if Listed(sql, rows, id) && Identity(sql, rows[n].product) != id {
      var k :| 0 <= k < |rows| && Identity(sql, rows[k].product) == id;
      assert rows[..n][k] == rows[k];
    }
  }

  lemma {:induction false} NothingListed(sql: Folding, rows: seq<Row>, id: Product, otherwise: int)
    requires !Listed(sql, rows, id)
    ensures RowTotal(sql, rows, id) == 0 && LastPrice(sql, rows, id, otherwise) == otherwise
  {
    if rows != [] {
      OneMoreRow(sql, rows, id, otherwise);
      NothingListed(sql, rows[..|rows| - 1], id, otherwise);
    }
  }

  /** A row carries over to every item: the one it hits takes it in, the others do not notice. */
  lemma CarriesOn(sql: Folding, rows: seq<Row>, item: Item, quantity: int, price: int, active: bool)
    requires rows != [] && Carries(sql, rows[..|rows| - 1], item, quantity, price, active)
    ensures var row := rows[|rows| - 1];
            Carries(sql, rows,
                    if Identity(sql, item.product) == Identity(sql, row.product) then Topped(item, row) else item,
                    quantity, price, active)
  {
    OneMoreRow(sql, rows, Identity(sql, item.product), price);
  }

  lemma FreshCarries(sql: Folding, rows: seq<Row>)
    requires rows != [] && !Listed(sql, rows[..|rows| - 1], Identity(sql, rows[|rows| - 1].product))
    ensures Carries(sql, rows, Fresh(rows[|rows| - 1]), 0, 0, false)
  {
    var id := Identity(sql, rows[|rows| - 1].product);
    OneMoreRow(sql, rows, id, 0);
    NothingListed(sql, rows[..|rows| - 1], id, 0);
  }

  lemma HasAll(sql: Folding, items: seq<Item>, rows: seq<Row>, before: seq<Item>, after: seq<Item>)
    requires rows != [] && Merged(sql, items, rows[..|rows| - 1], before)
    requires |before| <= |after| && forall k :: 0 <= k < |before| ==> after[k].product == before[k].product
    requires Has(sql, after, Identity(sql, rows[|rows| - 1].product))
    ensures forall k :: 0 <= k < |rows| ==> Has(sql, after, Identity(sql, rows[k].product))
  {
    forall k | 0 <= k < |rows| - 1 ensures Has(sql, after, Identity(sql, rows[k].product)) {
      assert rows[..|rows| - 1][k] == rows[k];
      var j :| 0 <= j < |before| && Identity(sql, before[j].product) == Identity(sql, rows[k].product);
      assert after[j].product == before[j].product;
    }
  }

  lemma InsertMerges(sql: Folding, items: seq<Item>, rows: seq<Row>, before: seq<Item>)
    requires rows != [] && Merged(sql, items, rows[..|rows| - 1], before)
    requires !Has(sql, before, Identity(sql, rows[|rows| - 1].product))
    ensures Merged(sql, items, rows, before + [Fresh(rows[|rows| - 1])])
  {
    var n := |rows| - 1;
    var row, after := rows[n], before + [Fresh(rows[n])];
    var id := Identity(sql, row.product);
    assert after[|before|] == Fresh(row);
    assert Listed(sql, rows, id);
    forall k | 0 <= k < n ensures Identity(sql, rows[..n][k].product) != id {
      assert Has(sql, before, Identity(sql, rows[..n][k].product));
    }
    FreshCarries(sql, rows);
    forall k | 0 <= k < |before|
      ensures k < |items| ==> Carries(sql, rows, after[k], items[k].quantity, items[k].price, items[k].active)
      ensures |items| <= k ==> Carries(sql, rows, after[k], 0, 0, false) && Listed(sql, rows, Identity(sql, after[k].product))
    {
      OneMoreRow(sql, rows, Identity(sql, before[k].product), 0);
      if k < |items| {
        CarriesOn(sql, rows, before[k], items[k].quantity, items[k].price, items[k].active);
      } else {
        CarriesOn(sql, rows, before[k], 0, 0, false);
      }
    }
    HasAll(sql, items, rows, before, after);
  }

  lemma UpdateMerges(sql: Folding, items: seq<Item>, rows: seq<Row>, before: seq<Item>, hit: nat)
    requires rows != [] && Merged(sql, items, rows[..|rows| - 1], before) && hit < |before|
    requires forall k :: 0 <= k < |before| ==>
      (Identity(sql, before[k].product) == Identity(sql, rows[|rows| - 1].product) <==> k == hit)
    ensures Merged(sql, items, rows, before[hit := Topped(before[hit], rows[|rows| - 1])])
  {
    var row := rows[|rows| - 1];
    var after := before[hit := Topped(before[hit], row)];
    forall k | 0 <= k < |before|
      ensures k < |items| ==> Carries(sql, rows, after[k], items[k].quantity, items[k].price, items[k].active)
      ensures |items| <= k ==> Carries(sql, rows, after[k], 0, 0, false) && Listed(sql, rows, Identity(sql, after[k].product))
    {
      OneMoreRow(sql, rows, Identity(sql, before[k].product), 0);
      if k < |items| {
        CarriesOn(sql, rows, before[k], items[k].quantity, items[k].price, items[k].active);
      } else {
        CarriesOn(sql, rows, before[k], 0, 0, false);
      }
    }
    assert Identity(sql, after[hit].product) == Identity(sql, row.product);
    HasAll(sql, items, rows, before, after);
  }

  /**
   The upload merges: each identity ends with its old quantity plus all its rows, the price of its
   last row, and one item however often and in whatever case it was listed.
   */
  lemma {:induction false} UploadMerges(sql: Folding, python: Folding, items: seq<Item>, rows: seq<Row>)
    requires FoldedAlike(sql, python, rows) && Upserted(sql, python, items, rows).Some?
    ensures Merged(sql, items, rows, Upserted(sql, python, items, rows).value)
    decreases |rows|
  {
    if rows == [] {
    } else {
      var n := |rows| - 1;
      UploadMerges(sql, python, items, rows[..n]);
      var before := Upserted(sql, python, items, rows[..n]).value;
      var found := Lookup(sql, before, Identity(python, rows[n].product));
      if found.Missing? {
        InsertMerges(sql, items, rows, before);
      } else {
        UpdateMerges(sql, items, rows, before, found.index);
      }
    }
  }

  /** Identities that were pairwise distinct stay so. */
  lemma {:induction false} IdentitiesStayDistinct(sql: Folding, python: Folding, items: seq<Item>, rows: seq<Row>)
    requires FoldedAlike(sql, python, rows) && Distinct(sql, items)
    ensures Upserted(sql, python, items, rows).Some?
    ensures Distinct(sql, Upserted(sql, python, items, rows).value)
  {
    FailsExactlyWhen(sql, python, items, rows);
    forall k | 0 <= k < |rows| ensures !OccursTwice(sql, items, Identity(sql, rows[k].product)) {}
    UploadMerges(sql, python, items, rows);
    var result := Upserted(sql, python, items, rows).value;
    forall j, k | 0 <= j < k < |items| ensures Identity(sql, result[j].product) != Identity(sql, result[k].product) {
      assert result[j].product == items[j].product && result[k].product == items[k].product;
    }
  }

  lemma TwiceStays(sql: Folding, items: seq<Item>, rows: seq<Row>, result: seq<Item>, id: Product)
    requires Merged(sql, items, rows, result)
    ensures OccursTwice(sql, items, id) <==> OccursTwice(sql, result, id)
  {
    if OccursTwice(sql, items, id) {
      var j, k :| 0 <= j < k < |items| && Identity(sql, items[j].product) == Identity(sql, items[k].product) == id;
      assert result[j].product == items[j].product && result[k].product == items[k].product;
    }
    if OccursTwice(sql, result, id) {
      var j, k :| 0 <= j < k < |result| && Identity(sql, result[j].product) == Identity(sql, result[k].product) == id;
      assert result[j].product == items[j].product && result[k].product == items[k].product;
    }
  }

  lemma TwiceIsMany(sql: Folding, items: seq<Item>, id: Product)
    ensures Lookup(sql, items, id).Many? <==> OccursTwice(sql, items, id)
  {
    if OccursTwice(sql, items, id) {
      var j, k :| 0 <= j < k < |items| && Identity(sql, items[j].product) == Identity(sql, items[k].product) == id;
    }
  }

  /** Some row names an identity that two items have. */
  ghost predicate NamesTwice(sql: Folding, items: seq<Item>, rows: seq<Row>)
  {
    exists k :: 0 <= k < |rows| && OccursTwice(sql, items, Identity(sql, rows[k].product))
  }

  lemma TwiceNamedOneMore(sql: Folding, items: seq<Item>, rows: seq<Row>)
    requires rows != []
    ensures NamesTwice(sql, items, rows)
       <==> NamesTwice(sql, items, rows[..|rows| - 1]) || OccursTwice(sql, items, Identity(sql, rows[|rows| - 1].product))
  {
    var n := |rows| - 1;
    if NamesTwice(sql, items, rows[..n]) {
      var k :| 0 <= k < n && OccursTwice(sql, items, Identity(sql, rows[..n][k].product));
      assert rows[k] == rows[..n][k];
    }
    if NamesTwice(sql, items, rows) {
      var k :| 0 <= k < |rows| && OccursTwice(sql, items, Identity(sql, rows[k].product));
      assert k < n ==> rows[..n][k] == rows[k];
    }
  }

  /** The upload fails, and changes nothing, exactly when a row names an identity the catalog already had twice. */
  lemma {:induction false} FailsExactlyWhen(sql: Folding, python: Folding, items: seq<Item>, rows: seq<Row>)
    requires FoldedAlike(sql, python, rows)
    ensures Upserted(sql, python, items, rows).None?
       <==> NamesTwice(sql, items, rows)
    decreases |rows|
  {
    if rows != [] {
      var n := |rows| - 1;
      var id := Identity(sql, rows[n].product);
      FailsExactlyWhen(sql, python, items, rows[..n]);
      if Upserted(sql, python, items, rows[..n]).Some? {
        UploadMerges(sql, python, items, rows[..n]);
        var before := Upserted(sql, python, items, rows[..n]).value;
        TwiceStays(sql, items, rows[..n], before, id);
        TwiceIsMany(sql, before, id);
      }
      assert Upserted(sql, python, items, rows).None?
        <==> Upserted(sql, python, items, rows[..n]).None? || OccursTwice(sql, items, id);
      TwiceNamedOneMore(sql, items, rows);
    }
  }

  // ---------- order ----------

  lemma {:induction false} TotalIgnoresOrder(sql: Folding, rows: seq<Row>, other: seq<Row>, id: Product)
    requires multiset(rows) == multiset(other)
    ensures RowTotal(sql, rows, id) == RowTotal(sql, other, id)
    decreases |rows|
  {
    if rows == [] {
      assert |multiset(rows)| == |multiset(other)|;
    } else {
      var n := |rows| - 1;
      var x := rows[n];
      assert rows == rows[..n] + [x];
      assert x in multiset(other);
      var k :| 0 <= k < |other| && other[k] == x;
      assert other == other[..k] + [x] + other[k + 1..];
      assert multiset(rows[..n]) == multiset(rows) - multiset{x};
      assert multiset(other[..k] + other[k + 1..]) == multiset(other) - multiset{x};
      TotalIgnoresOrder(sql, rows[..n], other[..k] + other[k + 1..], id);
      SumAppend(other[..k] + [x], other[k + 1..], QuantityFor(sql, id));
      SumSnoc(other[..k], x, QuantityFor(sql, id));
      SumAppend(other[..k], other[k + 1..], QuantityFor(sql, id));
    }
  }

  lemma ListedIgnoresOrder(sql: Folding, rows: seq<Row>, other: seq<Row>, id: Product)
    requires multiset(rows) == multiset(other) && Listed(sql, rows, id)
    ensures Listed(sql, other, id)
  {
    var k :| 0 <= k < |rows| && Identity(sql, rows[k].product) == id;
    assert rows[k] in multiset(other);
    var j :| 0 <= j < |other| && other[j] == rows[k];
    assert Identity(sql, other[j].product) == id;
  }

  /** In two merges of one catalog an identity is either the same old item or new in both. */
  lemma SamePlace(sql: Folding, items: seq<Item>, rows: seq<Row>, result: seq<Item>, other: seq<Row>, result': seq<Item>,
                  j: nat, k: nat)
    requires Merged(sql, items, rows, result) && Merged(sql, items, other, result') && Distinct(sql, items)
    requires j < |result| && k < |result'| && Identity(sql, result[j].product) == Identity(sql, result'[k].product)
    ensures j == k < |items| || (|items| <= j && |items| <= k)
  {
    if j < |items| {
      assert result'[j].product == items[j].product == result[j].product;
    }
    if k < |items| {
      assert result[k].product == items[k].product == result'[k].product;
    }
  }

  lemma CarriesAlike(sql: Folding, rows: seq<Row>, other: seq<Row>, a: Item, b: Item, quantity: int, price: int, active: bool)
    requires multiset(rows) == multiset(other) && Identity(sql, a.product) == Identity(sql, b.product)
    requires Carries(sql, rows, a, quantity, price, active) && Carries(sql, other, b, quantity, price, active)
    ensures a.quantity == b.quantity && a.active == b.active
  {
    var id := Identity(sql, a.product);
    TotalIgnoresOrder(sql, rows, other, id);
    if Listed(sql, rows, id) {
      ListedIgnoresOrder(sql, rows, other, id);
    }
    if Listed(sql, other, id) {
      ListedIgnoresOrder(sql, other, rows, id);
    }
  }

  /** Shuffling the rows changes no quantity: items with the same identity end with the same one. */
  lemma QuantitiesIgnoreOrder(sql: Folding, python: Folding, items: seq<Item>, rows: seq<Row>, other: seq<Row>, j: nat, k: nat)
    requires FoldedAlike(sql, python, rows) && FoldedAlike(sql, python, other) && Distinct(sql, items)
    requires multiset(rows) == multiset(other)
    requires Upserted(sql, python, items, rows).Some? && Upserted(sql, python, items, other).Some?
    requires j < |Upserted(sql, python, items, rows).value| && k < |Upserted(sql, python, items, other).value|
    ensures var a, b := Upserted(sql, python, items, rows).value[j], Upserted(sql, python, items, other).value[k];
            Identity(sql, a.product) == Identity(sql, b.product) ==> a.quantity == b.quantity && a.active == b.active
  {
    UploadMerges(sql, python, items, rows);
    UploadMerges(sql, python, items, other);
    MergesAlike(sql, items, rows, Upserted(sql, python, items, rows).value, other, Upserted(sql, python, items, other).value, j, k);
  }

  lemma MergesAlike(sql: Folding, items: seq<Item>, rows: seq<Row>, result: seq<Item>, other: seq<Row>, result': seq<Item>,
                    j: nat, k: nat)
    requires Merged(sql, items, rows, result) && Merged(sql, items, other, result') && Distinct(sql, items)
    requires multiset(rows) == multiset(other) && j < |result| && k < |result'|
    ensures Identity(sql, result[j].product) == Identity(sql, result'[k].product) ==>
              result[j].quantity == result'[k].quantity && result[j].active == result'[k].active
  {
    if Identity(sql, result[j].product) == Identity(sql, result'[k].product) {
      SamePlace(sql, items, rows, result, other, result', j, k);
      if j < |items| {
        CarriesAlike(sql, rows, other, result[j], result'[k], items[j].quantity, items[j].price, items[j].active);
      } else {
        CarriesAlike(sql, rows, other, result[j], result'[k], 0, 0, false);
      }
    }
  }

  // ---------- counting ----------

  ghost function Ids(sql: Folding, items: seq<Item>): set<Product>
  {
    set k | 0 <= k < |items| :: Identity(sql, items[k].product)
  }

  ghost function RowIds(sql: Folding, rows: seq<Row>): set<Product>
  {
    set k | 0 <= k < |rows| :: Identity(sql, rows[k].product)
  }

  lemma OneMoreId(sql: Folding, items: seq<Item>)
    requires items != [] && !Has(sql, items[..|items| - 1], Identity(sql, items[|items| - 1].product))
    ensures |Ids(sql, items)| == |Ids(sql, items[..|items| - 1])| + 1
  {
    var last := |items| - 1;
    var id := Identity(sql, items[last].product);
    assert id !in Ids(sql, items[..last]) by {
      if k :| 0 <= k < last && Identity(sql, items[..last][k].product) == id {
        assert Has(sql, items[..last], id);
      }
    }
    assert Ids(sql, items) == Ids(sql, items[..last]) + {id} by {
      assert forall k :: 0 <= k < last ==> items[..last][k] == items[k];
    }
  }

  lemma {:induction false} DistinctCount(sql: Folding, items: seq<Item>, n: nat)
    requires n <= |items|
    requires forall j, k :: 0 <= j < k < |items| && n <= k ==> Identity(sql, items[j].product) != Identity(sql, items[k].product)
    ensures |Ids(sql, items)| == |Ids(sql, items[..n])| + |items| - n
    decreases |items|
  {
    if n == |items| {
      assert items[..n] == items;
    } else {
      DistinctCount(sql, items[..|items| - 1], n);
      assert items[..|items| - 1][..n] == items[..n];
      OneMoreId(sql, items);
    }
  }

  lemma MergedIds(sql: Folding, items: seq<Item>, rows: seq<Row>, result: seq<Item>)
    requires Merged(sql, items, rows, result)
    ensures Ids(sql, result) == Ids(sql, items) + RowIds(sql, rows)
    ensures Ids(sql, result[..|items|]) == Ids(sql, items)
  {
    forall k | 0 <= k < |items| ensures result[..|items|][k].product == items[k].product {}
    forall id | id in Ids(sql, result) ensures id in Ids(sql, items) + RowIds(sql, rows) {
      var k :| 0 <= k < |result| && Identity(sql, result[k].product) == id;
      if k < |items| {
        assert result[k].product == items[k].product;
      } else {
        assert Listed(sql, rows, id);
      }
    }
    forall id | id in Ids(sql, items) ensures id in Ids(sql, result) {
      var k :| 0 <= k < |items| && Identity(sql, items[k].product) == id;
      assert result[k].product == items[k].product;
    }
    forall id | id in RowIds(sql, rows) ensures id in Ids(sql, result) {
      assert Has(sql, result, id);
    }
  }

  /** The inserted count is the number of identities the catalog did not have. */
  lemma InsertedCount(sql: Folding, python: Folding, items: seq<Item>, rows: seq<Row>)
    requires FoldedAlike(sql, python, rows) && Upserted(sql, python, items, rows).Some?
    ensures |Upserted(sql, python, items, rows).value| - |items| == |RowIds(sql, rows) - Ids(sql, items)|
  {
    UploadMerges(sql, python, items, rows);
    MergedCount(sql, items, rows, Upserted(sql, python, items, rows).value);
  }

  lemma MergedCount(sql: Folding, items: seq<Item>, rows: seq<Row>, result: seq<Item>)
    requires Merged(sql, items, rows, result)
    ensures |result| - |items| == |RowIds(sql, rows) - Ids(sql, items)|
  {
    MergedIds(sql, items, rows, result);
    DistinctCount(sql, result, |items|);
    var known, listed := Ids(sql, items), RowIds(sql, rows);
    assert known + listed == known + (listed - known);
  }

  // ---------- when the two foldings differ ----------

  ghost predicate KeepsDistinct(sql: Folding, python: Folding, items: seq<Item>, row: Row)
  {
    Distinct(sql, items) ==>
      UpsertRow(sql, python, items, row).Some? && Distinct(sql, UpsertRow(sql, python, items, row).value)
  }

  /**
   A row leaves every catalog with distinct identities exactly when Python and the database fold it
   alike; one they fold differently does not find its own item and is stored a second time.
   */
  lemma SafeRowExactlyWhen(sql: Folding, python: Folding, row: Row)
    ensures (forall items: seq<Item> :: KeepsDistinct(sql, python, items, row))
       <==> Identity(sql, row.product) == Identity(python, row.product)
  {
    if Identity(sql, row.product) == Identity(python, row.product) {
      forall items: seq<Item> ensures KeepsDistinct(sql, python, items, row) {
        if Distinct(sql, items) {
          IdentitiesStayDistinct(sql, python, items, [row]);
          assert [row][..0] == [];
        }
      }
    } else {
      var items := [Fresh(row)];
      var after := UpsertRow(sql, python, items, row).value;
      assert after[0] == after[1] == Fresh(row);
      assert !KeepsDistinct(sql, python, items, row);
    }
  }
}
