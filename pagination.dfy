/** usePagination (src/hooks/usePagination/index.ts): the page numbers read
    from the request's first parameter, the page count, and the clamping that
    `onChange` applies before re-running the request. */
module Pagination {
  import opened Js

  /** The options this hook reads itself; `...rest` goes to useRequest. */
  datatype PaginationOptions = PaginationOptions(defaultPageSize: Option<int>, defaultCurrent: Option<int>)

  function DefaultPageSize(o: PaginationOptions): int {
    o.defaultPageSize.GetOr(10)
  }

  /** `defaultParams: [{ current: defaultCurrent, pageSize: defaultPageSize }]`. */
  function DefaultParams(o: PaginationOptions): (r: seq<Value>)
    ensures |r| == 1
    ensures Field(r[0], "current") == Num(o.defaultCurrent.GetOr(1))
    ensures Field(r[0], "pageSize") == Num(o.defaultPageSize.GetOr(10))
    ensures FieldsOf(r[0]).Keys == {"current", "pageSize"}
  {
    [Obj(map["current" := Num(o.defaultCurrent.GetOr(1)), "pageSize" := Num(DefaultPageSize(o))])]
  }

  /** A destructuring default: `undefined` takes `default`; a number is kept. */
  function NumberOr(v: Value, default: int): int {
    if v.Num? then v.n else default
  }

  /** `const { current = 1 } = params[0] || {}`: a numeric field is the
      page, and a missing first parameter or field gives page 1. */
  function Current(params: seq<Value>): (r: int)
    ensures Field(At(params, 0, Undefined), "current").Num? ==> r == Field(params[0], "current").n
    ensures params == [] || !params[0].Obj? || "current" !in params[0].fields ==> r == 1
  {
    NumberOr(Field(At(params, 0, Undefined), "current"), 1)
  }

  /** `const { pageSize = defaultPageSize } = params[0] || {}`: a numeric
      field is the size, and a missing first parameter or field gives the
      default. */
  function PageSize(params: seq<Value>, defaultPageSize: int): (r: int)
    ensures Field(At(params, 0, Undefined), "pageSize").Num? ==> r == Field(params[0], "pageSize").n
    ensures params == [] || !params[0].Obj? || "pageSize" !in params[0].fields ==> r == defaultPageSize
  {
    NumberOr(Field(At(params, 0, Undefined), "pageSize"), defaultPageSize)
  }

  /** `result.data?.total || 0`. */
  function Total(data: Value): (t: int)
    ensures !Truthy(Field(data, "total")) ==> t == 0
    ensures Field(data, "total").Num? ==> t == Field(data, "total").n
  {
    var t := Field(data, "total");
    if Truthy(t) && t.Num? then t.n else 0
  }

  /** `Math.ceil(total / pageSize)`: no finite page count for a zero size. */
  function TotalPage(total: int, pageSize: int): (r: Option<int>)
    ensures r.None? <==> pageSize == 0
    ensures pageSize > 0 && r.Some? ==> (r.value - 1) * pageSize < total <= r.value * pageSize
  {
    if pageSize == 0 then None else Some(Ceil(total, pageSize))
  }

  datatype Page = Page(current: int, pageSize: int)

  /** The page `onChange(c, p)` moves to: a negative page becomes 1, a size
      `<= 0` becomes 1, and a page past the last one becomes the last page
      (at least 1). */
  function Clamp(total: int, c: int, p: int): (r: Page)
    ensures r.pageSize == (if p <= 0 then 1 else p)
    ensures r.pageSize >= 1 && r.current >= 0
    ensures var last := Ceil(total, r.pageSize);
      && (c < 0 ==> r.current == 1)
      && (0 <= c <= last ==> r.current == c)
      && (c > last ==> r.current == (if last < 1 then 1 else last))
      && (r.current <= last || r.current <= 1)
  {
    var toPageSize := if p <= 0 then 1 else p;
    var toCurrent := if c < 0 then 1 else c;
    var last := Ceil(total, toPageSize);
    Page(if toCurrent > last then (if last < 1 then 1 else last) else toCurrent, toPageSize)
  }

  /** The parameters `onChange(c, p)` passes to `run`: the old first
      parameter's fields with `current` and `pageSize` overridden, then the
      remaining parameters unchanged. */
  function OnChange(params: seq<Value>, total: int, c: int, p: int): (r: seq<Value>)
    ensures |r| == (if params == [] then 1 else |params|)
    ensures r[1..] == (if params == [] then [] else params[1..])
    ensures Current(r) == Clamp(total, c, p).current
    ensures PageSize(r, 0) == Clamp(total, c, p).pageSize
    ensures forall k | k != "current" && k != "pageSize" :: Field(r[0], k) == Field(At(params, 0, Undefined), k)
  {
    var page := Clamp(total, c, p);
    var old0 := if params == [] || params[0] == Undefined then Obj(map[]) else params[0];
    var rest := if params == [] then [] else params[1..];
    [Obj(FieldsOf(old0)["current" := Num(page.current)]["pageSize" := Num(page.pageSize)])] + rest
  }

  /** `changeCurrent(c)`: `onChange(c, pageSize)`. The run gets page `c`,
      clamped to the pages there are, at the current size (1 when that is not
      positive); every other field and parameter is kept. */
  function ChangeCurrent(params: seq<Value>, data: Value, defaultPageSize: int, c: int): (r: seq<Value>)
    ensures |r| >= 1 && r[1..] == (if params == [] then [] else params[1..])
    ensures var size := PageSize(params, defaultPageSize);
      PageSize(r, 0) == (if size <= 0 then 1 else size)
    ensures Current(r) == Clamp(Total(data), c, PageSize(params, defaultPageSize)).current
    ensures forall k | k != "current" && k != "pageSize" :: Field(r[0], k) == Field(At(params, 0, Undefined), k)
  {
    OnChange(params, Total(data), c, PageSize(params, defaultPageSize))
  }

  /** `changePageSize(p)`: `onChange(current, p)`. The run gets size `p`
      (1 when it is not positive) and the current page, clamped to the pages
      there are at that size; every other field and parameter is kept. */
  function ChangePageSize(params: seq<Value>, data: Value, defaultPageSize: int, p: int): (r: seq<Value>)
    ensures |r| >= 1 && r[1..] == (if params == [] then [] else params[1..])
    ensures PageSize(r, 0) == (if p <= 0 then 1 else p)
    ensures Current(r) == Clamp(Total(data), Current(params), p).current
    ensures forall k | k != "current" && k != "pageSize" :: Field(r[0], k) == Field(At(params, 0, Undefined), k)
  {
    OnChange(params, Total(data), Current(params), p)
  }

  /** `changeCurrent` keeps a valid page size. */
  lemma ChangeCurrentKeepsPageSize(params: seq<Value>, data: Value, defaultPageSize: int, c: int)
    requires PageSize(params, defaultPageSize) >= 1
    ensures PageSize(ChangeCurrent(params, data, defaultPageSize, c), 0) == PageSize(params, defaultPageSize)
    ensures 0 <= c <= Ceil(Total(data), PageSize(params, defaultPageSize)) ==>
      Current(ChangeCurrent(params, data, defaultPageSize, c)) == c
  {
  }

  /** `changePageSize` keeps the page whenever the page still exists at the
      new size. */
  lemma ChangePageSizeKeepsPage(params: seq<Value>, data: Value, defaultPageSize: int, p: int)
    requires p >= 1 && 0 <= Current(params) <= Ceil(Total(data), p)
    ensures Current(ChangePageSize(params, data, defaultPageSize, p)) == Current(params)
    ensures PageSize(ChangePageSize(params, data, defaultPageSize, p), 0) == p
  {
  }

  /** The `refreshDepsAction`, `changeCurrent(1)`, always lands on page 1,
      whatever the total. */
  lemma RefreshDepsGoesToFirstPage(params: seq<Value>, data: Value, defaultPageSize: int)
    ensures Current(ChangeCurrent(params, data, defaultPageSize, 1)) == 1
  {
  }

  /** The page `onChange` moves to exists: it is at least 1 unless it was
      asked for page 0, and at most the last page unless there are no pages. */
  lemma ClampedPageExists(total: int, c: int, p: int)
    requires total >= 0
    ensures var r := Clamp(total, c, p);
      && (c != 0 ==> 1 <= r.current)
      && (total > 0 ==> (r.current - 1) * r.pageSize < total)
  {
    var r := Clamp(total, c, p);
    var last := Ceil(total, r.pageSize);
    if total > 0 {
      assert last >= 1;
      if r.current > 0 && r.current <= last {
        MulMonotone(r.current - 1, last - 1, r.pageSize);
      }
    }
  }
}
