/**
 * The admin daily sales report: the orders placed on the selected day and
 * the two totals shown above the table. The order list is an input (its
 * records are not part of this model) and `sameDay` stands for date-fns'
 * `isSameDay(parseISO(orderDate), selected)`. Amounts are in cents.
 */
module SalesReport {
  import opened Wrappers
  import opened JsArray

  datatype OrderStatus = Pending | Packing | Processing | Shipped | OutForDelivery | Delivered | Cancelled

  /** The order fields the report reads. */
  datatype Order = Order(
    id: string,
    customerName: string,
    orderDate: string,
    status: OrderStatus,
    itemCount: int,
    totalAmount: int)

  function PlacedOn<D>(selected: D, sameDay: (string, D) -> bool): Order -> bool {
    (o: Order) => sameDay(o.orderDate, selected)
  }

  /** `dailyOrders`: nothing without a date, else the orders of that day in list order. */
  function DailyOrders<D>(orders: seq<Order>, selected: Option<D>, sameDay: (string, D) -> bool): (r: seq<Order>)
    ensures selected.None? ==> r == []
    ensures selected.Some? ==> IsSubsequence(r, orders)
    ensures selected.Some? ==> forall i :: 0 <= i < |r| ==> r[i] in orders && sameDay(r[i].orderDate, selected.value)
    ensures selected.Some? ==> forall i :: 0 <= i < |orders| && sameDay(orders[i].orderDate, selected.value) ==> orders[i] in r
  {
    if selected.None? then []
    else
      FilterIsSubsequence(PlacedOn(selected.value, sameDay), orders);
      Filter(PlacedOn(selected.value, sameDay), orders)
  }

  /** `order.status !== 'Cancelled'` */
  predicate Counted(o: Order) {
    o.status != Cancelled
  }

  function Amount(o: Order): int {
    o.totalAmount
  }

  function CountedAmount(o: Order): int {
    if Counted(o) then o.totalAmount else 0
  }

  /** `totalSales`: the reduce that adds each order's amount unless it is cancelled. */
  function TotalSales(daily: seq<Order>): (r: int)
    ensures daily == [] ==> r == 0
    ensures (forall i :: 0 <= i < |daily| ==> daily[i].totalAmount >= 0) ==> r >= 0
  {
    var _ := if forall i :: 0 <= i < |daily| ==> CountedAmount(daily[i]) >= 0 then SumOfNonNegative(daily, CountedAmount); 0 else 0;
    SumOf(daily, CountedAmount)
  }

  /** `totalOrderCount`: the number of orders that are not cancelled. */
  function TotalOrderCount(daily: seq<Order>): (n: nat)
    ensures n <= |daily|
  {
    |Filter(Counted, daily)|
  }

  lemma SumOfSingle(o: Order, f: Order -> int)
    ensures SumOf([o], f) == f(o)
  {
    assert [o][..0] == [];
  }

  /** The total is the plain sum of amounts over the orders that are not cancelled. */
  lemma {:induction false} TotalSalesOverCounted(daily: seq<Order>)
    ensures TotalSales(daily) == SumOf(Filter(Counted, daily), Amount)
  {
    if daily != [] {
      var head, rest := [daily[0]], daily[1..];
      assert daily == head + rest;
      TotalSalesOverCounted(rest);
      SumOfAppend(head, rest, CountedAmount);
      SumOfSingle(daily[0], CountedAmount);
      var kept := if Counted(daily[0]) then head else [];
      assert Filter(Counted, daily) == kept + Filter(Counted, rest);
      SumOfAppend(kept, Filter(Counted, rest), Amount);
      if Counted(daily[0]) {
        SumOfSingle(daily[0], Amount);
      }
    }
  }

  /** Every order counts exactly when none of the day's orders is cancelled. */
  lemma {:induction false} CountIsLengthIffNoneCancelled(daily: seq<Order>)
    ensures TotalOrderCount(daily) == |daily| <==> forall i :: 0 <= i < |daily| ==> Counted(daily[i])
  {
    if daily != [] {
      CountIsLengthIffNoneCancelled(daily[1..]);
      assert forall i :: 1 <= i < |daily| ==> daily[i] == daily[1..][i - 1];
    }
  }

  /** A cancelled order of the selected day is listed in the table but changes neither total. */
  lemma CancelledOrderListedNotCounted<D>(orders: seq<Order>, o: Order, selected: D, sameDay: (string, D) -> bool)
    requires o.status == Cancelled && sameDay(o.orderDate, selected)
    ensures DailyOrders(orders + [o], Some(selected), sameDay) == DailyOrders(orders, Some(selected), sameDay) + [o]
    ensures TotalSales(DailyOrders(orders + [o], Some(selected), sameDay)) == TotalSales(DailyOrders(orders, Some(selected), sameDay))
    ensures TotalOrderCount(DailyOrders(orders + [o], Some(selected), sameDay)) == TotalOrderCount(DailyOrders(orders, Some(selected), sameDay))
  {
    var day := DailyOrders(orders, Some(selected), sameDay);
    FilterAppend(PlacedOn(selected, sameDay), orders, [o]);
    assert Filter(PlacedOn(selected, sameDay), [o]) == [o] by {
      assert [o][1..] == [];
    }
    SumOfAppend(day, [o], CountedAmount);
    SumOfSingle(o, CountedAmount);
    FilterAppend(Counted, day, [o]);
    assert Filter(Counted, [o]) == [] by {
      assert [o][1..] == [];
    }
  }
}
