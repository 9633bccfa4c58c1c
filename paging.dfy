/**
 * Pagination requests: the ordering clause an order list renders to and the
 * `Paging` object the caller fills in and the pagination stage updates with
 * the totals.
 */
module Pages {
  datatype OrderItem = OrderItem(column: string, desc: bool)

  /** The clause one item contributes. */
  function OrderClause(o: OrderItem): string
  {
    " ORDER BY " + o.column + (if o.desc then " DESC" else " ASC")
  }

  /** The text of an order list: every item's clause, in order, with no commas between them. */
  function OrdersSql(items: seq<OrderItem>): string
  {
    if |items| == 0 then "" else OrdersSql(items[..|items| - 1]) + OrderClause(items[|items| - 1])
  }

  /** `OrderItems.SqlStmt`. */
  method SqlStmt(items: seq<OrderItem>) returns (r: string)
    ensures r == OrdersSql(items)
  {
    r := "";
    for i := 0 to |items|
      invariant r == OrdersSql(items[..i])
    {
      assert items[..i + 1][..i] == items[..i];
      r := r + " ORDER BY ";
      r := r + items[i].column;
      if items[i].desc {
        r := r + " DESC";
      } else {
        r := r + " ASC";
      }
    }
    assert items[..|items|] == items;
  }

  /** The text of two lists one after the other is the text of each, one after the other. */
  lemma {:induction false} OrdersSqlAppend(xs: seq<OrderItem>, ys: seq<OrderItem>)
    ensures OrdersSql(xs + ys) == OrdersSql(xs) + OrdersSql(ys)
  {
    if |ys| > 0 {
      assert (xs + ys)[..|xs + ys| - 1] == xs + ys[..|ys| - 1];
      OrdersSqlAppend(xs, ys[..|ys| - 1]);
    } else {
      assert xs + ys == xs;
    }
  }

  /** The text is empty exactly when there are no items; otherwise it starts with the first item's clause. */
  lemma {:induction false} OrdersSqlStart(items: seq<OrderItem>)
    ensures OrdersSql(items) == "" <==> items == []
    ensures items != [] ==> OrdersSql(items) == OrderClause(items[0]) + OrdersSql(items[1..])
  {
    if items != [] {
      assert items == [items[0]] + items[1..];
      OrdersSqlAppend([items[0]], items[1..]);
      assert [items[0]][..0] == [];
    }
  }

  /** One descending item per column, in order. */
  function Descs(columns: seq<string>): (r: seq<OrderItem>)
  {
    if |columns| == 0 then [] else Descs(columns[..|columns| - 1]) + [OrderItem(columns[|columns| - 1], true)]
  }

  /** One ascending item per column, in order. */
  function Ascs(columns: seq<string>): (r: seq<OrderItem>)
  {
    if |columns| == 0 then [] else Ascs(columns[..|columns| - 1]) + [OrderItem(columns[|columns| - 1], false)]
  }

  /** The items `AddDescs`/`AddAscs` add: column `i` becomes item `i`, with the direction asked for. */
  lemma {:induction false} DirectedItems(columns: seq<string>)
    ensures |Descs(columns)| == |columns| && |Ascs(columns)| == |columns|
    ensures forall i :: 0 <= i < |columns| ==> Descs(columns)[i] == OrderItem(columns[i], true)
    ensures forall i :: 0 <= i < |columns| ==> Ascs(columns)[i] == OrderItem(columns[i], false)
  {
    if |columns| > 0 {
      DirectedItems(columns[..|columns| - 1]);
    }
  }

  class Paging {
    var pageSize: int
    var currentPage: int
    var totalCount: int
    var totalPages: int
    var orders: seq<OrderItem>

    /** `NewPaging`: no totals yet and no ordering. */
    constructor (currentPage: int, pageSize: int)
      ensures this.currentPage == currentPage && this.pageSize == pageSize
      ensures totalCount == 0 && totalPages == 0 && orders == []
    {
      this.currentPage := currentPage;
      this.pageSize := pageSize;
      totalCount := 0;
      totalPages := 0;
      orders := [];
    }

    method SetPageSize(pageSize: int) returns (r: Paging)
      modifies this
      ensures r == this && this.pageSize == pageSize
      ensures currentPage == old(currentPage) && totalCount == old(totalCount)
      ensures totalPages == old(totalPages) && orders == old(orders)
    {
      this.pageSize := pageSize;
      r := this;
    }

    method SetCurrentPage(cur: int) returns (r: Paging)
      modifies this
      ensures r == this && currentPage == cur
      ensures pageSize == old(pageSize) && totalCount == old(totalCount)
      ensures totalPages == old(totalPages) && orders == old(orders)
    {
      currentPage := cur;
      r := this;
    }

    method AddOrderItems(orderItems: seq<OrderItem>) returns (r: Paging)
      modifies this
      ensures r == this && orders == old(orders) + orderItems
      ensures pageSize == old(pageSize) && currentPage == old(currentPage)
      ensures totalCount == old(totalCount) && totalPages == old(totalPages)
    {
      orders := orders + orderItems;
      r := this;
    }

    method AddDescs(columns: seq<string>) returns (r: Paging)
      modifies this
      ensures r == this && orders == old(orders) + Descs(columns)
      ensures pageSize == old(pageSize) && currentPage == old(currentPage)
      ensures totalCount == old(totalCount) && totalPages == old(totalPages)
    {
      for i := 0 to |columns|
        invariant orders == old(orders) + Descs(columns[..i])
        invariant pageSize == old(pageSize) && currentPage == old(currentPage)
        invariant totalCount == old(totalCount) && totalPages == old(totalPages)
      {
        assert columns[..i + 1][..i] == columns[..i];
        orders := orders + [OrderItem(columns[i], true)];
      }
      assert columns[..|columns|] == columns;
      r := this;
    }

    method AddAscs(columns: seq<string>) returns (r: Paging)
      modifies this
      ensures r == this && orders == old(orders) + Ascs(columns)
      ensures pageSize == old(pageSize) && currentPage == old(currentPage)
      ensures totalCount == old(totalCount) && totalPages == old(totalPages)
    {
      for i := 0 to |columns|
        invariant orders == old(orders) + Ascs(columns[..i])
        invariant pageSize == old(pageSize) && currentPage == old(currentPage)
        invariant totalCount == old(totalCount) && totalPages == old(totalPages)
      {
        assert columns[..i + 1][..i] == columns[..i];
        orders := orders + [OrderItem(columns[i], false)];
      }
      assert columns[..|columns|] == columns;
      r := this;
    }

    function CurrentPage(): int
      reads this
    {
      currentPage
    }

    function PageSize(): int
      reads this
    {
      pageSize
    }

    function TotalCount(): int
      reads this
    {
      totalCount
    }

    function TotalPages(): int
      reads this
    {
      totalPages
    }

    method SetTotalCount(i: int)
      modifies this
      ensures totalCount == i
      ensures pageSize == old(pageSize) && currentPage == old(currentPage)
      ensures totalPages == old(totalPages) && orders == old(orders)
    {
      totalCount := i;
    }

    method SetTotalPages(i: int)
      modifies this
      ensures totalPages == i
      ensures pageSize == old(pageSize) && currentPage == old(currentPage)
      ensures totalCount == old(totalCount) && orders == old(orders)
    {
      totalPages := i;
    }

    /** A `Paging` always asks for the total count. */
    function IsSelectCount(): (r: bool)
      ensures r
    {
      true
    }

    function Orders(): seq<OrderItem>
      reads this
    {
      orders
    }
  }
}
