/** The suppressions façade: pre-flight checks of the query, the list endpoint with the typed
    shortcuts built on it, and a client-side filter on the creation date. */
module Suppressions {
  import opened PhpValues
  import opened PhpRuntime
  import opened Exceptions
  import opened Client
  import SuppressionModel
  import PaginationModel

  const TypeKey := "type"
  const PageKey := "page"
  const PerPageKey := "per_page"
  const SearchKey := "search"
  const DataKey := "data"
  const PaginationKey := "pagination"
  const FiltersKey := "filters"

  /** The suppression types the API accepts. */
  const SuppressionTypes: seq<string> := ["unsubscribe", "bounce", "whitelist"]

  const InvalidTypeMessage := "Invalid suppression type. Must be one of: " + Join(", ", SuppressionTypes)
  const PageMessage := "Page must be greater than or equal to 1."
  const PerPageMessage := "Per page must be between 10 and 100."

  /** `in_array($v, $validTypes)` under PHP 8's loose `==`: none of the names is numeric, so a
      string matches only itself, and `true` matches any non-empty string. */
  predicate IsValidType(v: Value) {
    (v.Str? && v.s in SuppressionTypes) || v == Bool(true)
  }

  predicate TypeOk(params: PhpArray) {
    !IsSet(params, StrKey(TypeKey)) || IsValidType(Get(params, StrKey(TypeKey)))
  }

  predicate PageOk(lib: Library, params: PhpArray) {
    !IsSet(params, StrKey(PageKey)) || IntCast(lib, Get(params, StrKey(PageKey))) >= 1
  }

  predicate PerPageOk(lib: Library, params: PhpArray) {
    !IsSet(params, StrKey(PerPageKey)) || 10 <= IntCast(lib, Get(params, StrKey(PerPageKey))) <= 100
  }

  /** `validateSuppressionParams`: the type, the page and the page size, in that order; the
      first one out of range throws its message. */
  function SuppressionParamsError(lib: Library, params: PhpArray): (r: Option<Raised>)
    ensures r.None? <==> TypeOk(params) && PageOk(lib, params) && PerPageOk(lib, params)
    ensures !TypeOk(params) ==> r == Some(Reject(InvalidTypeMessage))
    ensures TypeOk(params) && !PageOk(lib, params) ==> r == Some(Reject(PageMessage))
    ensures TypeOk(params) && PageOk(lib, params) && !PerPageOk(lib, params) ==> r == Some(Reject(PerPageMessage))
  {
    var checks := [Require(TypeOk(params), InvalidTypeMessage),
                   Require(PageOk(lib, params), PageMessage),
                   Require(PerPageOk(lib, params), PerPageMessage)];
    assert checks[..0] == [] && checks[..1] == [checks[0]] && checks[..2] == [checks[0], checks[1]];
    FirstFailure(checks)
  }

  /** The list endpoint of a domain. */
  function SuppressionsEndpoint(domain: string): string {
    DomainsPath + domain + "/suppressions"
  }

  /** `searchSuppressions`' query: the caller's parameters with `search` set by the argument. */
  function SearchParams(additional: PhpArray, search: string): PhpArray {
    Merge(additional, [(StrKey(SearchKey), Str(search))])
  }

  /** `getSuppressionsPaginated`'s query: the caller's parameters with `page` and `per_page` set. */
  function PaginatedParams(additional: PhpArray, page: int, perPage: int): PhpArray {
    Merge(additional, [(StrKey(PageKey), Int(page)), (StrKey(PerPageKey), Int(perPage))])
  }

  /** What `getSuppressions` returns: the typed records, the pagination block or null, and the filters. */
  datatype SuppressionList = SuppressionList(data: seq<SuppressionModel.Suppression>,
                                             pagination: Option<PaginationModel.Pagination>,
                                             filters: Value)

  /** A response the shaping can turn into records without a TypeError. */
  predicate Shapeable(response: PhpArray) {
    && (forall v :: v in Items(Get(response, StrKey(DataKey))) ==> SuppressionModel.Accepts(v))
    && (IsSet(response, StrKey(PaginationKey)) ==> PaginationModel.Accepts(Get(response, StrKey(PaginationKey))))
  }

  /** The list holds one record per element of `data`, in order, with the element's values;
      the pagination block exactly when the response has one; `filters`, or `[]`. */
  predicate Shaped(response: PhpArray, list: SuppressionList)
    reads list.data, if list.pagination.Some? then {list.pagination.value} else {}
  {
    var items := Items(Get(response, StrKey(DataKey)));
    && |list.data| == |items|
    && (forall i :: 0 <= i < |items| ==>
          items[i].Arr? && list.data[i].ToArray() == Project(items[i].entries, SuppressionModel.Keys))
    && (list.pagination.Some? <==> IsSet(response, StrKey(PaginationKey)))
    && (list.pagination.Some? ==>
          Get(response, StrKey(PaginationKey)).Arr? &&
          list.pagination.value.ToArray() == Project(Get(response, StrKey(PaginationKey)).entries, PaginationModel.Keys))
    && list.filters == Coalesce(Get(response, StrKey(FiltersKey)), Arr([]))
  }

  /** The outcome of `getSuppressions` once the client has answered. */
  predicate ListedFrom(answer: Result<PhpArray, Raised>, r: Result<SuppressionList, Raised>)
    reads if r.Success? then r.value.data else []
    reads if r.Success? && r.value.pagination.Some? then {r.value.pagination.value} else {}
  {
    match answer
    case Failure(e) => r == Failure(e)
    case Success(response) =>
      if Shapeable(response) then r.Success? && Shaped(response, r.value) else r == Failure(TypeError)
  }

  /** `$createdAt && $createdAt >= $startDate`: the record has a creation date not before `start`. */
  predicate CreatedOnOrAfter(s: SuppressionModel.Suppression, start: DateTime)
    reads s
  {
    s.CreatedAtDateTime().Some? && s.CreatedAtDateTime().value.timestamp >= start.timestamp
  }

  /** `array_values(array_filter($data, ...))`: the records created at or after `start`, in order. */
  function CreatedAfter(xs: seq<SuppressionModel.Suppression>, start: DateTime): (r: seq<SuppressionModel.Suppression>)
    reads set x | x in xs
    ensures forall i :: 0 <= i < |r| ==> r[i] in xs && CreatedOnOrAfter(r[i], start)
    ensures forall i :: 0 <= i < |xs| && CreatedOnOrAfter(xs[i], start) ==> xs[i] in r
    ensures |r| <= |xs|
  {
    if xs == [] then []
    else (if CreatedOnOrAfter(xs[0], start) then [xs[0]] else []) + CreatedAfter(xs[1..], start)
  }

  /** The shaping half of `getSuppressions`: type the records, then the pagination block, then
      take the filters. */
  method ShapeList(response: PhpArray) returns (r: Result<SuppressionList, Raised>)
    ensures Shapeable(response) ==> r.Success? && Shaped(response, r.value)
    ensures !Shapeable(response) ==> r == Failure(TypeError)
  {
    var items := Items(Get(response, StrKey(DataKey)));
    var data := SuppressionModel.BuildAll(items);
    if data.Failure? {
      assert !Shapeable(response) by {
        var i :| 0 <= i < |items| && !SuppressionModel.Accepts(items[i]);
        assert items[i] in items;
      }
      return Failure(data.error);
    }
    var pagination := PaginationModel.BuildIfSet(Get(response, StrKey(PaginationKey)));
    if pagination.Failure? {
      return Failure(pagination.error);
    }
    r := Success(SuppressionList(data.value, pagination.value, Coalesce(Get(response, StrKey(FiltersKey)), Arr([]))));
  }

  class SuppressionsApi {
    const client: SmtpClient

    constructor (client: SmtpClient)
      ensures this.client == client
    {
      this.client := client;
    }

    /** `getSuppressions`: check the query, send it, and type the records of the answer. */
    method GetSuppressions(domain: string, params: PhpArray := []) returns (r: Result<SuppressionList, Raised>)
      modifies client`sent
      ensures SuppressionParamsError(client.lib, params).Some? ==>
                r == Failure(SuppressionParamsError(client.lib, params).value) && client.sent == old(client.sent)
      ensures SuppressionParamsError(client.lib, params).None? ==>
                client.sent == old(client.sent) + [client.Prepared("GET", SuppressionsEndpoint(domain), Options(Query(params), [], false))] &&
                ListedFrom(client.Answer(old(client.sent), client.sent[|client.sent| - 1]), r)
    {
      var error := SuppressionParamsError(client.lib, params);
      if error.Some? {
        return Failure(error.value);
      }
      var response := client.Get(SuppressionsEndpoint(domain), params);
      if response.Failure? {
        return Failure(response.error);
      }
      r := ShapeList(response.value);
    }

    /** `getUnsubscribeSuppressions` asks for the type "unsubscribes", which is not a valid type. */
    method GetUnsubscribeSuppressions(domain: string, params: PhpArray := []) returns (r: Result<SuppressionList, Raised>)
      modifies client`sent
      ensures r == Failure(Reject(InvalidTypeMessage)) && client.sent == old(client.sent)
    {
      ShortcutTypes(client.lib, params);
      r := GetSuppressionsByType(domain, "unsubscribes", params);
    }

    /** `getBounceSuppressions` asks for the type "bounces", which is not a valid type. */
    method GetBounceSuppressions(domain: string, params: PhpArray := []) returns (r: Result<SuppressionList, Raised>)
      modifies client`sent
      ensures r == Failure(Reject(InvalidTypeMessage)) && client.sent == old(client.sent)
    {
      ShortcutTypes(client.lib, params);
      r := GetSuppressionsByType(domain, "bounces", params);
    }

    /** `getWhitelistSuppressions`: the list query with the type "whitelist". */
    method GetWhitelistSuppressions(domain: string, params: PhpArray := []) returns (r: Result<SuppressionList, Raised>)
      modifies client`sent
      ensures var query := PhpValues.Put(params, StrKey(TypeKey), Str("whitelist"));
              && (SuppressionParamsError(client.lib, query).Some? ==>
                    r == Failure(SuppressionParamsError(client.lib, query).value) && client.sent == old(client.sent))
              && (SuppressionParamsError(client.lib, query).None? ==>
                    client.sent == old(client.sent) + [client.Prepared("GET", SuppressionsEndpoint(domain), Options(Query(query), [], false))] &&
                    ListedFrom(client.Answer(old(client.sent), client.sent[|client.sent| - 1]), r))
    {
      r := GetSuppressionsByType(domain, "whitelist", params);
    }

    /** `getSuppressionsByType`: the list query with `type` overwritten by the argument. */
    method GetSuppressionsByType(domain: string, suppressionType: string, params: PhpArray := [])
      returns (r: Result<SuppressionList, Raised>)
      modifies client`sent
      ensures var query := PhpValues.Put(params, StrKey(TypeKey), Str(suppressionType));
              && (SuppressionParamsError(client.lib, query).Some? ==>
                    r == Failure(SuppressionParamsError(client.lib, query).value) && client.sent == old(client.sent))
              && (SuppressionParamsError(client.lib, query).None? ==>
                    client.sent == old(client.sent) + [client.Prepared("GET", SuppressionsEndpoint(domain), Options(Query(query), [], false))] &&
                    ListedFrom(client.Answer(old(client.sent), client.sent[|client.sent| - 1]), r))
    {
      var query := params;
      query := PhpValues.Put(query, StrKey(TypeKey), Str(suppressionType));
      TypeArgumentDecides(client.lib, params, suppressionType);
      r := GetSuppressions(domain, query);
    }

    /** `searchSuppressions`: the list query with `search` overwritten by the argument. */
    method SearchSuppressions(domain: string, search: string, additional: PhpArray := [])
      returns (r: Result<SuppressionList, Raised>)
      modifies client`sent
      ensures var query := SearchParams(additional, search);
              && (SuppressionParamsError(client.lib, query).Some? ==>
                    r == Failure(SuppressionParamsError(client.lib, query).value) && client.sent == old(client.sent))
              && (SuppressionParamsError(client.lib, query).None? ==>
                    client.sent == old(client.sent) + [client.Prepared("GET", SuppressionsEndpoint(domain), Options(Query(query), [], false))] &&
                    ListedFrom(client.Answer(old(client.sent), client.sent[|client.sent| - 1]), r))
    {
      r := GetSuppressions(domain, SearchParams(additional, search));
    }

    /** `getSuppressionsPaginated`: the list query with `page` and `per_page` overwritten. */
    method GetSuppressionsPaginated(domain: string, page: int := 1, perPage: int := 10, additional: PhpArray := [])
      returns (r: Result<SuppressionList, Raised>)
      modifies client`sent
      ensures var query := PaginatedParams(additional, page, perPage);
              && (SuppressionParamsError(client.lib, query).Some? ==>
                    r == Failure(SuppressionParamsError(client.lib, query).value) && client.sent == old(client.sent))
              && (SuppressionParamsError(client.lib, query).None? ==>
                    client.sent == old(client.sent) + [client.Prepared("GET", SuppressionsEndpoint(domain), Options(Query(query), [], false))] &&
                    ListedFrom(client.Answer(old(client.sent), client.sent[|client.sent| - 1]), r))
    {
      r := GetSuppressions(domain, PaginatedParams(additional, page, perPage));
    }

    /** `getSuppressionsCreatedAfter`: the unfiltered list, keeping only the records created at
        or after `start`; pagination and filters are those of the unfiltered list. */
    method GetSuppressionsCreatedAfter(domain: string, start: DateTime, additional: PhpArray := [])
      returns (r: Result<SuppressionList, Raised>)
      modifies client`sent
      ensures SuppressionParamsError(client.lib, additional).Some? ==>
                r == Failure(SuppressionParamsError(client.lib, additional).value) && client.sent == old(client.sent)
      ensures SuppressionParamsError(client.lib, additional).None? ==>
                client.sent == old(client.sent) + [client.Prepared("GET", SuppressionsEndpoint(domain), Options(Query(additional), [], false))]
      ensures SuppressionParamsError(client.lib, additional).None? && r.Failure? ==>
                ListedFrom(client.Answer(old(client.sent), client.sent[|client.sent| - 1]), r)
      ensures r.Success? ==> exists all: SuppressionList ::
                ListedFrom(client.Answer(old(client.sent), client.sent[|client.sent| - 1]), Success(all)) &&
                r.value == all.(data := CreatedAfter(all.data, start))
    {
      var all := GetSuppressions(domain, additional);
      if all.Failure? {
        return all;
      }
      r := Success(all.value.(data := CreatedAfter(all.value.data, start)));
      assert ListedFrom(client.Answer(old(client.sent), client.sent[|client.sent| - 1]), Success(all.value));
    }
  }

  // ---------------------------------------------------------------------
  // Lemmas

  /** Setting `type` to `t` decides the type check by `t` alone and leaves the other checks as they were. */
  lemma TypeArgumentDecides(lib: Library, params: PhpArray, t: string)
    ensures var query := PhpValues.Put(params, StrKey(TypeKey), Str(t));
            && (TypeOk(query) <==> t in SuppressionTypes)
            && (PageOk(lib, query) <==> PageOk(lib, params))
            && (PerPageOk(lib, query) <==> PerPageOk(lib, params))
  {
    var query := PhpValues.Put(params, StrKey(TypeKey), Str(t));
    assert Get(query, StrKey(TypeKey)) == Str(t);
    assert Get(query, StrKey(PageKey)) == Get(params, StrKey(PageKey));
    assert Get(query, StrKey(PerPageKey)) == Get(params, StrKey(PerPageKey));
  }

  /** The unsubscribe and bounce shortcuts ask for "unsubscribes" and "bounces", which the type
      check refuses whatever else the query holds; "whitelist" passes it. */
  lemma ShortcutTypes(lib: Library, params: PhpArray)
    ensures SuppressionParamsError(lib, PhpValues.Put(params, StrKey(TypeKey), Str("unsubscribes"))) == Some(Reject(InvalidTypeMessage))
    ensures SuppressionParamsError(lib, PhpValues.Put(params, StrKey(TypeKey), Str("bounces"))) == Some(Reject(InvalidTypeMessage))
    ensures SuppressionParamsError(lib, PhpValues.Put(params, StrKey(TypeKey), Str("whitelist"))).None? <==>
            PageOk(lib, params) && PerPageOk(lib, params)
  {
    TypeArgumentDecides(lib, params, "unsubscribes");
    var q := PhpValues.Put(params, StrKey(TypeKey), Str("unsubscribes"));
    assert "unsubscribes" !in SuppressionTypes;
    assert !TypeOk(q);
    TypeArgumentDecides(lib, params, "bounces");
    var b := PhpValues.Put(params, StrKey(TypeKey), Str("bounces"));
    assert "bounces" !in SuppressionTypes;
    assert !TypeOk(b);
    TypeArgumentDecides(lib, params, "whitelist");
  }

  /** The explicit `search` wins over the caller's, and every other named parameter is kept. */
  lemma SearchOverrides(additional: PhpArray, search: string)
    requires UniqueKeys(additional)
    ensures Lookup(SearchParams(additional, search), StrKey(SearchKey)) == Some(Str(search))
    ensures forall s :: s != SearchKey ==>
              Lookup(SearchParams(additional, search), StrKey(s)) == Lookup(additional, StrKey(s))
  {
    var b := [(StrKey(SearchKey), Str(search))];
    forall s ensures Lookup(SearchParams(additional, search), StrKey(s)) ==
                     if s == SearchKey then Some(Str(search)) else Lookup(additional, StrKey(s)) {
      MergeLookup(additional, b, s);
    }
  }

  /** The explicit `page` and `per_page` win over the caller's, and every other named parameter is kept. */
  lemma PaginatedOverrides(additional: PhpArray, page: int, perPage: int)
    requires UniqueKeys(additional)
    ensures Lookup(PaginatedParams(additional, page, perPage), StrKey(PageKey)) == Some(Int(page))
    ensures Lookup(PaginatedParams(additional, page, perPage), StrKey(PerPageKey)) == Some(Int(perPage))
    ensures forall s :: s != PageKey && s != PerPageKey ==>
              Lookup(PaginatedParams(additional, page, perPage), StrKey(s)) == Lookup(additional, StrKey(s))
  {
    var b := [(StrKey(PageKey), Int(page)), (StrKey(PerPageKey), Int(perPage))];
    assert UniqueKeys(b);
    forall s ensures Lookup(PaginatedParams(additional, page, perPage), StrKey(s)) ==
                     if s == PageKey then Some(Int(page))
                     else if s == PerPageKey then Some(Int(perPage))
                     else Lookup(additional, StrKey(s)) {
      MergeLookup(additional, b, s);
    }
  }

  /** The date filter works element by element: filtering a concatenation filters each part. */
  lemma {:induction false} CreatedAfterAppend(xs: seq<SuppressionModel.Suppression>, ys: seq<SuppressionModel.Suppression>, start: DateTime)
    ensures CreatedAfter(xs + ys, start) == CreatedAfter(xs, start) + CreatedAfter(ys, start)
    decreases |xs|
  {
    if xs != [] {
      assert (xs + ys)[0] == xs[0] && (xs + ys)[1..] == xs[1..] + ys;
      CreatedAfterAppend(xs[1..], ys, start);
    } else {
      assert xs + ys == ys;
    }
  }

  /** Filtering twice by the same date filters once. */
  lemma {:induction false} CreatedAfterIdempotent(xs: seq<SuppressionModel.Suppression>, start: DateTime)
    ensures CreatedAfter(CreatedAfter(xs, start), start) == CreatedAfter(xs, start)
    decreases |xs|
  {
    if xs != [] {
      var head := if CreatedOnOrAfter(xs[0], start) then [xs[0]] else [];
      CreatedAfterAppend(head, CreatedAfter(xs[1..], start), start);
      CreatedAfterIdempotent(xs[1..], start);
      if head != [] {
        assert CreatedAfter(head, start) == head by {
          assert head[1..] == [];
        }
      }
    }
  }
}
