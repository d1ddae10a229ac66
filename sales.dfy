/**
 * The roll-up of get_period (main.py:205-216) over the records returned by the
 * report endpoint.  Money is held in integer kopecks; the average is exact.
 */
module Sales {
  import opened Common

  /** One row of `reportDetailByPeriod`, with the fields the report reads. */
  datatype Record = Record(
    quantity: int,
    retailPrice: int,
    commissionPercent: int,
    ppvzSppPrc: int,
    acquiringPercent: int,
    deliveryRub: int,
    storageFee: int)

  function Quantity(r: Record): int { r.quantity }
  function LineSales(r: Record): int { r.quantity * r.retailPrice }
  function Commission(r: Record): int { r.commissionPercent }
  function Discount(r: Record): int { r.ppvzSppPrc }
  function Acquiring(r: Record): int { r.acquiringPercent }
  function Logistics(r: Record): int { r.deliveryRub }
  function Storage(r: Record): int { r.storageFee }

  /** Python's `sum` of one per-record figure, in record order. */
  function Sum(rs: seq<Record>, f: Record -> int): int
  {
    if rs == [] then 0 else f(rs[0]) + Sum(rs[1..], f)
  }

  /** Summing over two batches of records adds their sums. */
  lemma {:induction false} SumAppend(a: seq<Record>, b: seq<Record>, f: Record -> int)
    ensures Sum(a + b, f) == Sum(a, f) + Sum(b, f)
  {
    if a != [] {
      assert (a + b)[1..] == a[1..] + b;
      SumAppend(a[1..], b, f);
    } else {
      assert a + b == b;
    }
  }

  /** The figures of the report message. */
  datatype Summary = Summary(
    shopName: string,
    totalSales: int,
    totalQty: int,
    commissionTotal: int,
    discountTotal: int,
    acquiringTotal: int,
    logisticsTotal: int,
    storageTotal: int,
    averagePrice: real)

  datatype DataError =
    | NoUnitsSold        // `total_sales/total_qty` with a zero total raises ZeroDivisionError
    | ResponseNotMapping // `.get` called on the response list raises AttributeError

  /**
   * The evident per-record intent of main.py:205-216: seven sums and the average
   * price, which exists only when the sold units do not add up to zero.
   */
  function Summarize(shopName: string, rs: seq<Record>): (r: Result<Summary, DataError>)
    ensures r.Failure? <==> Sum(rs, Quantity) == 0
    ensures r.Failure? ==> r.error == NoUnitsSold
    ensures r.Success? ==> r.value.shopName == shopName
    ensures r.Success? ==>
              && r.value.totalQty == Sum(rs, Quantity)
              && r.value.totalSales == Sum(rs, LineSales)
              && r.value.commissionTotal == Sum(rs, Commission)
              && r.value.discountTotal == Sum(rs, Discount)
              && r.value.acquiringTotal == Sum(rs, Acquiring)
              && r.value.logisticsTotal == Sum(rs, Logistics)
              && r.value.storageTotal == Sum(rs, Storage)
    ensures r.Success? ==> r.value.averagePrice * (r.value.totalQty as real) == r.value.totalSales as real
  {
    var qty := Sum(rs, Quantity);
    var sales := Sum(rs, LineSales);
    if qty == 0 then Failure(NoUnitsSold)
    else Success(Summary(
      shopName,
      sales,
      qty,
      Sum(rs, Commission),
      Sum(rs, Discount),
      Sum(rs, Acquiring),
      Sum(rs, Logistics),
      Sum(rs, Storage),
      (sales as real) / (qty as real)))
  }

  /**
   * main.py:205-216 as written: `sales_data.get(...)` on the list the endpoint
   * returns raises AttributeError before any figure is computed.
   */
  function SummarizeAsWritten(shopName: string, rs: seq<Record>): (r: Result<Summary, DataError>)
    ensures r == Failure(ResponseNotMapping)
  {
    Failure(ResponseNotMapping)
  }

  /** A sale of one unit: as written no report results, as intended one does. */
  lemma SummarizeAsWrittenFailsOnSale()
    ensures SummarizeAsWritten("shop", [Record(1, 100, 0, 0, 0, 0, 0)]).Failure?
    ensures Summarize("shop", [Record(1, 100, 0, 0, 0, 0, 0)]).Success?
  {
    assert Sum([Record(1, 100, 0, 0, 0, 0, 0)], Quantity) == 1;
  }

  /** Two units at 100 and three at 50: 5 units, 350 in sales, 70 on average. */
  lemma SummarizeExample()
    ensures var r := Summarize("shop", [Record(2, 100, 0, 0, 0, 0, 0), Record(3, 50, 0, 0, 0, 0, 0)]);
            r.Success? && r.value.totalQty == 5 && r.value.totalSales == 350 && r.value.averagePrice == 70.0
  {
    var rs := [Record(2, 100, 0, 0, 0, 0, 0), Record(3, 50, 0, 0, 0, 0, 0)];
    assert rs[1..][1..] == [];
    assert Sum(rs, Quantity) == 5;
    assert Sum(rs, LineSales) == 350;
  }

  /** No records: no average, never a division by zero. */
  lemma SummarizeEmpty(shopName: string)
    ensures Summarize(shopName, []) == Failure(NoUnitsSold)
  {
  }

  /** The report over two batches of records is the sum of the two reports. */
  lemma SummarizeAppend(shopName: string, a: seq<Record>, b: seq<Record>)
    requires Summarize(shopName, a).Success? && Summarize(shopName, b).Success?
    requires Summarize(shopName, a + b).Success?
    ensures var ra, rb, r := Summarize(shopName, a).value, Summarize(shopName, b).value, Summarize(shopName, a + b).value;
            && r.totalQty == ra.totalQty + rb.totalQty
            && r.totalSales == ra.totalSales + rb.totalSales
            && r.commissionTotal == ra.commissionTotal + rb.commissionTotal
            && r.discountTotal == ra.discountTotal + rb.discountTotal
            && r.acquiringTotal == ra.acquiringTotal + rb.acquiringTotal
            && r.logisticsTotal == ra.logisticsTotal + rb.logisticsTotal
            && r.storageTotal == ra.storageTotal + rb.storageTotal
  {
    SumAppend(a, b, Quantity);
    SumAppend(a, b, LineSales);
    SumAppend(a, b, Commission);
    SumAppend(a, b, Discount);
    SumAppend(a, b, Acquiring);
    SumAppend(a, b, Logistics);
    SumAppend(a, b, Storage);
  }

  /** Every record sells a non-negative number of units at a price within [lo, hi]. */
  ghost predicate PricesWithin(rs: seq<Record>, lo: int, hi: int)
  {
    forall i :: 0 <= i < |rs| ==> rs[i].quantity >= 0 && lo <= rs[i].retailPrice <= hi
  }

  /** `q * lo <= q * p <= q * hi` for a non-negative quantity `q` and a price `p` in [lo, hi]. */
  lemma LineWithin(q: int, p: int, lo: int, hi: int)
    requires q >= 0 && lo <= p <= hi
    ensures lo * q <= q * p <= hi * q
  {
    assert q * (p - lo) >= 0;
    assert q * (hi - p) >= 0;
  }

  lemma Distribute(a: int, b: int, c: int)
    ensures a * (b + c) == a * b + a * c
  {
  }

  /** Total sales are bounded by the total units at the lowest and at the highest price. */
  lemma {:induction false} SalesBetween(rs: seq<Record>, lo: int, hi: int)
    requires PricesWithin(rs, lo, hi)
    ensures Sum(rs, Quantity) >= 0
    ensures lo * Sum(rs, Quantity) <= Sum(rs, LineSales) <= hi * Sum(rs, Quantity)
  {
    if rs != [] {
      var rest := rs[1..];
      assert PricesWithin(rest, lo, hi) by {
        forall i | 0 <= i < |rest| ensures rest[i].quantity >= 0 && lo <= rest[i].retailPrice <= hi {
          assert rest[i] == rs[i + 1];
        }
      }
      SalesBetween(rest, lo, hi);
      var q, p := rs[0].quantity, rs[0].retailPrice;
      var qs, ss := Sum(rest, Quantity), Sum(rest, LineSales);
      assert q >= 0 && lo <= p <= hi;
      LineWithin(q, p, lo, hi);
      Distribute(lo, q, qs);
      Distribute(hi, q, qs);
      assert Sum(rs, Quantity) == q + qs;
      assert Sum(rs, LineSales) == q * p + ss;
    }
  }

  /** `lo <= s / q <= hi` when `q > 0` and `lo * q <= s <= hi * q`. */
  lemma QuotientWithin(s: int, q: int, lo: int, hi: int)
    requires q > 0 && lo * q <= s <= hi * q
    ensures lo as real <= (s as real) / (q as real) <= hi as real
  {
    var avg := (s as real) / (q as real);
    assert avg * (q as real) == s as real;
    assert (lo * q) as real == (lo as real) * (q as real);
    assert (hi * q) as real == (hi as real) * (q as real);
  }

  /** With no returns, the average price lies between the lowest and highest retail price. */
  lemma AverageWithinPrices(shopName: string, rs: seq<Record>, lo: int, hi: int)
    requires PricesWithin(rs, lo, hi)
    requires Summarize(shopName, rs).Success?
    ensures lo as real <= Summarize(shopName, rs).value.averagePrice <= hi as real
  {
    SalesBetween(rs, lo, hi);
    QuotientWithin(Sum(rs, LineSales), Sum(rs, Quantity), lo, hi);
  }
}
