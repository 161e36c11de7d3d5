/** The pagination block of list responses: total, page, limit and offset,
    with the page arithmetic derived from them. */
module PaginationModel {
  import opened PhpValues
  import opened PhpRuntime
  import opened Exceptions

  const TotalKey := "total"
  const PageKey := "page"
  const LimitKey := "limit"
  const OffsetKey := "offset"

  /** `(int) ceil($total / $limit)` computed exactly: the least integer not below the quotient. */
  function CeilDiv(total: int, limit: int): (r: int)
    requires limit != 0
    ensures limit > 0 ==> (r - 1) * limit < total <= r * limit
    ensures limit < 0 ==> r * limit <= total < (r - 1) * limit
  {
    if limit > 0 then -((-total) / limit) else -(total / (-limit))
  }


  /** The keys of `toArray()`, in order; the constructor reads the same keys. */
  const Keys: seq<string> := [TotalKey, PageKey, LimitKey, OffsetKey]

  /** Can `new Pagination($d)` store every value in its typed property? */
  predicate WellTyped(d: PhpArray) {
    && IsIntOrNull(Get(d, StrKey(TotalKey)))
    && IsIntOrNull(Get(d, StrKey(PageKey)))
    && IsIntOrNull(Get(d, StrKey(LimitKey)))
    && IsIntOrNull(Get(d, StrKey(OffsetKey)))
  }

  /** `new Pagination($v)` succeeds: `$v` is an array of well-typed values. */
  predicate Accepts(v: Value) {
    v.Arr? && WellTyped(v.entries)
  }

  class Pagination {
    var total: Option<int>
    var page: Option<int>
    var limit: Option<int>
    var offset: Option<int>

    /** `new Pagination($data)`: each property from its key, null when the key is absent. */
    constructor (data: PhpArray)
      requires WellTyped(data)
      ensures total == AsInt(Get(data, StrKey(TotalKey)))
      ensures page == AsInt(Get(data, StrKey(PageKey)))
      ensures limit == AsInt(Get(data, StrKey(LimitKey)))
      ensures offset == AsInt(Get(data, StrKey(OffsetKey)))
      ensures ToArray() == Project(data, Keys)
    {
      total := AsInt(Get(data, StrKey(TotalKey)));
      page := AsInt(Get(data, StrKey(PageKey)));
      limit := AsInt(Get(data, StrKey(LimitKey)));
      offset := AsInt(Get(data, StrKey(OffsetKey)));
      ProjectOnKeys(data);
      StoredValue(Get(data, StrKey(TotalKey)));
      StoredValue(Get(data, StrKey(PageKey)));
      StoredValue(Get(data, StrKey(LimitKey)));
      StoredValue(Get(data, StrKey(OffsetKey)));
    }

    method SetTotal(total: Option<int>) returns (self: Pagination)
      modifies this`total
      ensures self == this && this.total == total
    {
      this.total := total;
      self := this;
    }

    method SetPage(page: Option<int>) returns (self: Pagination)
      modifies this`page
      ensures self == this && this.page == page
    {
      this.page := page;
      self := this;
    }

    method SetLimit(limit: Option<int>) returns (self: Pagination)
      modifies this`limit
      ensures self == this && this.limit == limit
    {
      this.limit := limit;
      self := this;
    }

    method SetOffset(offset: Option<int>) returns (self: Pagination)
      modifies this`offset
      ensures self == this && this.offset == offset
    {
      this.offset := offset;
      self := this;
    }

    /** Number of pages: null without a total or a non-zero limit, else the quotient rounded up. */
    function GetTotalPages(): (r: Option<int>)
      reads this
      ensures r.None? <==> total.None? || limit.None? || limit.value == 0
      ensures r.Some? && limit.value > 0 ==>
                (r.value - 1) * limit.value < total.value <= r.value * limit.value
      ensures r.Some? && limit.value < 0 ==>
                r.value * limit.value <= total.value < (r.value - 1) * limit.value
    {
      if total.None? || limit.None? || limit.value == 0 then None
      else Some(CeilDiv(total.value, limit.value))
    }

    predicate HasNextPage()
      reads this
      ensures HasNextPage() ==> page.Some? && GetTotalPages().Some? && page.value < GetTotalPages().value
    {
      var totalPages := GetTotalPages();
      totalPages.Some? && page.Some? && page.value < totalPages.value
    }

    predicate HasPreviousPage()
      reads this
      ensures HasPreviousPage() <==> page.Some? && page.value >= 2
    {
      page.Some? && page.value > 1
    }

    /** The following page number, exactly when there is one; never beyond the last page. */
    function GetNextPage(): (r: Option<int>)
      reads this
      ensures r.Some? <==> HasNextPage()
      ensures r.Some? ==> r.value == page.value + 1 && r.value <= GetTotalPages().value
    {
      if HasNextPage() then Some(page.value + 1) else None
    }

    /** The preceding page number, exactly when there is one; never below page 1. */
    function GetPreviousPage(): (r: Option<int>)
      reads this
      ensures r.Some? <==> HasPreviousPage()
      ensures r.Some? ==> r.value == page.value - 1 && r.value >= 1
    {
      if HasPreviousPage() then Some(page.value - 1) else None
    }


    /** `toArray()`: every property under its key, in the order of `Keys`. */
    function ToArray(): (r: PhpArray)
      reads this
      ensures KeysOf(r) == StrKeys(Keys)
    {
      Record(Keys, [OfInt(total), OfInt(page), OfInt(limit), OfInt(offset)])
    }

    function JsonSerialize(): (r: PhpArray)
      reads this
      ensures r == ToArray()
    {
      ToArray()
    }
  }

  /** No key of `toArray()` is repeated. */
  lemma KeysDistinct()
    ensures Distinct(Keys)
  {
  }

  /** toArray keeps every property: the array is accepted by the constructor, reading it
      back gives the properties again, and rebuilding from it gives the same array. */
  lemma ToArrayReadsBack(c: Pagination)
    ensures var r := c.ToArray();
            && WellTyped(r)
            && AsInt(Get(r, StrKey(TotalKey))) == c.total
            && AsInt(Get(r, StrKey(PageKey))) == c.page
            && AsInt(Get(r, StrKey(LimitKey))) == c.limit
            && AsInt(Get(r, StrKey(OffsetKey))) == c.offset
            && Project(r, Keys) == r
  {
    assert Keys[0] == TotalKey && Keys[1] == PageKey && Keys[2] == LimitKey && Keys[3] == OffsetKey;
    KeysDistinct();
    RecordGet(Keys, [OfInt(c.total), OfInt(c.page), OfInt(c.limit), OfInt(c.offset)]);
    ProjectIdentity(c.ToArray(), Keys);
  }

  /** The projection of any array on `Keys` is the record of its values under those keys. */
  lemma ProjectOnKeys(d: PhpArray)
    ensures Project(d, Keys) == Record(Keys, [Get(d, StrKey(TotalKey)), Get(d, StrKey(PageKey)), Get(d, StrKey(LimitKey)), Get(d, StrKey(OffsetKey))])
  {
    var vs := [Get(d, StrKey(TotalKey)), Get(d, StrKey(PageKey)), Get(d, StrKey(LimitKey)), Get(d, StrKey(OffsetKey))];
    forall i | 0 <= i < |Keys| ensures vs[i] == Get(d, StrKey(Keys[i])) {
      assert i == 0 || i == 1 || i == 2 || i == 3;
    }
  }

  /** `new Pagination($v)` for a decoded value: a TypeError unless `$v` is an array of well-typed values. */
  method Build(v: Value) returns (r: Result<Pagination, Raised>)
    ensures r.Success? <==> Accepts(v)
    ensures r.Success? ==> fresh(r.value) && r.value.ToArray() == Project(v.entries, Keys)
    ensures r.Failure? ==> r.error == TypeError
  {
    if Accepts(v) {
      var c := new Pagination(v.entries);
      r := Success(c);
    } else {
      r := Failure(TypeError);
    }
  }


  /** `isset($v) ? new Pagination($v) : null`. */
  method BuildIfSet(v: Value) returns (r: Result<Option<Pagination>, Raised>)
    ensures v == Null ==> r == Success(None)
    ensures v != Null ==> (r.Success? <==> Accepts(v))
    ensures v != Null && r.Success? ==>
              r.value.Some? && fresh(r.value.value) && r.value.value.ToArray() == Project(v.entries, Keys)
    ensures r.Failure? ==> r.error == TypeError
  {
    if v == Null {
      return Success(None);
    }
    var p := Build(v);
    if p.Failure? {
      return Failure(p.error);
    }
    return Success(Some(p.value));
  }

  /** With a positive limit, a next page exists exactly when the current page ends before the total. */
  lemma NextPageMeansMoreItems(p: Pagination)
    requires p.total.Some? && p.limit.Some? && p.limit.value > 0 && p.page.Some?
    ensures p.HasNextPage() <==> p.page.value * p.limit.value < p.total.value
  {
    var n, l, t := p.page.value, p.limit.value, p.total.value;
    var tp := p.GetTotalPages().value;
    if n < tp {
      assert n <= tp - 1;
      MulMonotone(n, tp - 1, l);
    } else {
      MulMonotone(tp, n, l);
    }
  }

  lemma MulMonotone(a: int, b: int, c: int)
    requires a <= b && c > 0
    ensures a * c <= b * c
  {
    assert b * c - a * c == (b - a) * c;
  }

  /** The page counts the source's tests rely on. */
  lemma TotalPagesExamples()
    ensures CeilDiv(100, 10) == 10 && CeilDiv(95, 10) == 10 && CeilDiv(100, 15) == 7
  {
  }


}
