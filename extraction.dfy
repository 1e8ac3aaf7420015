/** extract_data and check_delivery_date (invoices.py:117-145): rows become items, kept when their quantity is positive. */
module Extraction {
  import opened Types
  import opened Seqs
  import opened Decimal

  /** The item built from one row: "<code> - <name>", the quantity as str(int), the other fields copied. */
  function ToItem(row: Row): (item: Item)
    ensures ParseInt(item.quantity) == Some(row.quantity)
    ensures item.orderNumber == row.orderNumber && item.deliveryDate == row.deliveryDate && item.price == row.price
  {
    IntStringRoundTrip(row.quantity);
    Item(row.orderNumber, row.deliveryDate, row.productCode + " - " + row.productName,
         IntString(row.quantity), row.price)
  }

  /** The filter int(item["invoice_item_quantity"]) > 0; ParseInt never fails on ToItem's quantities. */
  predicate IsKept(item: Item)
  {
    match ParseInt(item.quantity)
    case Some(q) => q > 0
    case None => false
  }

  /** The item of every row, in row order. */
  function RowItems(rows: seq<Row>): seq<Item>
  {
    seq(|rows|, i requires 0 <= i < |rows| => ToItem(rows[i]))
  }

  /** The items extract_data collects: those of rows whose quantity passes the filter. */
  function KeptItems(rows: seq<Row>): seq<Item>
  {
    Filter(RowItems(rows), IsKept)
  }

  /** The set of delivery dates the items carry. */
  function DeliveryDates(items: seq<Item>): set<string>
  {
    set item | item in items :: item.deliveryDate
  }

  /** True iff the items carry at most one distinct delivery date. */
  function CheckDeliveryDate(items: seq<Item>): (ok: bool)
    ensures ok <==> forall i, j :: 0 <= i < |items| && 0 <= j < |items| ==>
                      items[i].deliveryDate == items[j].deliveryDate
  {
    SingleDateIffAllEqual(items);
    |DeliveryDates(items)| <= 1
  }

  lemma SingleDateIffAllEqual(items: seq<Item>)
    ensures |DeliveryDates(items)| <= 1 <==>
              forall i, j :: 0 <= i < |items| && 0 <= j < |items| ==>
                items[i].deliveryDate == items[j].deliveryDate
  {
    var dates := DeliveryDates(items);
    if |dates| <= 1 {
      forall i, j | 0 <= i < |items| && 0 <= j < |items|
        ensures items[i].deliveryDate == items[j].deliveryDate
      {
        assert items[i] in items && items[j] in items;
        AtMostOneElement(dates, items[i].deliveryDate, items[j].deliveryDate);
      }
    }
    if forall i, j :: 0 <= i < |items| && 0 <= j < |items| ==> items[i].deliveryDate == items[j].deliveryDate {
      AllEqualSingleDate(items);
    }
  }

  lemma AllEqualSingleDate(items: seq<Item>)
    requires forall i, j :: 0 <= i < |items| && 0 <= j < |items| ==>
               items[i].deliveryDate == items[j].deliveryDate
    ensures |DeliveryDates(items)| <= 1
  {
    if items != [] {
      assert DeliveryDates(items) == {items[0].deliveryDate};
    } else {
      assert DeliveryDates(items) == {};
    }
  }

  lemma AtMostOneElement(dates: set<string>, a: string, b: string)
    requires |dates| <= 1 && a in dates && b in dates
    ensures a == b
  {
    var rest := dates - {a};
    assert |rest| == |dates| - 1;
    assert a != b ==> b in rest;
  }

  lemma KeptIffPositive(row: Row)
    ensures IsKept(ToItem(row)) <==> row.quantity > 0
  {
    IntStringRoundTrip(row.quantity);
  }

  lemma RowItemsPrefix(rows: seq<Row>, i: nat)
    requires i <= |rows|
    ensures RowItems(rows[..i]) == RowItems(rows)[..i]
  {
  }

  lemma KeptItemsStep(rows: seq<Row>, i: nat)
    requires i < |rows|
    ensures KeptItems(rows[..i + 1]) ==
              KeptItems(rows[..i]) + (if rows[i].quantity > 0 then [ToItem(rows[i])] else [])
  {
    assert RowItems(rows[..i + 1]) == RowItems(rows[..i]) + [ToItem(rows[i])];
    FilterAppend(RowItems(rows[..i]), ToItem(rows[i]), IsKept);
    KeptIffPositive(rows[i]);
  }

  /** Every row with a positive quantity yields an item, placed after the items of the earlier rows. */
  lemma KeepsPositiveRows(rows: seq<Row>, i: nat)
    requires i < |rows| && rows[i].quantity > 0
    ensures |KeptItems(rows[..i])| < |KeptItems(rows)|
    ensures KeptItems(rows)[|KeptItems(rows[..i])|] == ToItem(rows[i])
  {
    KeptIffPositive(rows[i]);
    RowItemsPrefix(rows, i);
    FilterAt(RowItems(rows), i, IsKept);
  }

  /** Every kept item is the item of a row with a positive quantity, at the place KeepsPositiveRows gives. */
  lemma KeptFromPositiveRow(rows: seq<Row>, k: nat) returns (i: nat)
    requires k < |KeptItems(rows)|
    ensures i < |rows| && rows[i].quantity > 0
    ensures k == |KeptItems(rows[..i])| && KeptItems(rows)[k] == ToItem(rows[i])
  {
    i := FilterSource(RowItems(rows), k, IsKept);
    KeptIffPositive(rows[i]);
    RowItemsPrefix(rows, i);
  }

  /** A table without positive quantities yields no items, and those pass the date check. */
  lemma NoPositiveRowNoItems(rows: seq<Row>)
    requires forall i :: 0 <= i < |rows| ==> rows[i].quantity <= 0
    ensures KeptItems(rows) == []
    ensures CheckDeliveryDate(KeptItems(rows))
  {
    if KeptItems(rows) != [] {
      var i := KeptFromPositiveRow(rows, 0);
    }
  }

  lemma {:induction false} RowItemsConcat(a: seq<Row>, b: seq<Row>)
    ensures RowItems(a + b) == RowItems(a) + RowItems(b)
  {
  }

  /**
   * A row whose quantity is not positive can be taken out of the table anywhere without changing
   * the kept items; in particular its delivery date takes no part in the date check.
   */
  lemma {:induction false} NonPositiveRowIgnored(a: seq<Row>, x: Row, b: seq<Row>)
    requires x.quantity <= 0
    ensures KeptItems(a + [x] + b) == KeptItems(a + b)
  {
    var ia, ib := RowItems(a), RowItems(b);
    RowItemsConcat(a + [x], b);
    RowItemsConcat(a, [x]);
    RowItemsConcat(a, b);
    assert RowItems([x]) == [ToItem(x)];
    assert RowItems(a + [x] + b) == (ia + [ToItem(x)]) + ib;
    FilterConcat(ia + [ToItem(x)], ib, IsKept);
    FilterConcat(ia, ib, IsKept);
    FilterAppend(ia, ToItem(x), IsKept);
    KeptIffPositive(x);
    assert Filter(ia + [ToItem(x)], IsKept) == Filter(ia, IsKept);
  }

  /**
   * extract_data: one pass over the rows collecting kept items; then an empty table fails,
   * and so do kept items with more than one delivery date.
   */
  method ExtractData(rows: seq<Row>) returns (r: Result<seq<Item>>)
    ensures rows == [] ==> r == Err(EmptyFile)
    ensures rows != [] && !CheckDeliveryDate(KeptItems(rows)) ==> r == Err(DatesDoNotMatch)
    ensures rows != [] && CheckDeliveryDate(KeptItems(rows)) ==> r == Ok(KeptItems(rows))
  {
    var items: seq<Item> := [];
    var i := 0;
    while i < |rows|
      invariant 0 <= i <= |rows|
      invariant items == KeptItems(rows[..i])
    {
      var item := ToItem(rows[i]);
      IntStringRoundTrip(rows[i].quantity);
      var quantity := ParseInt(item.quantity).value;
      if quantity > 0 {
        items := items + [item];
      }
      KeptItemsStep(rows, i);
      i := i + 1;
    }
    assert rows[..i] == rows;
    if |rows| == 0 {
      return Err(EmptyFile);
    }
    if !CheckDeliveryDate(items) {
      return Err(DatesDoNotMatch);
    }
    return Ok(items);
  }
}
