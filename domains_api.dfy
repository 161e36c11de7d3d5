/** The domains façade: list, create, read, update and delete sending domains, and set up
    and verify their DNS authentication. */
module Domains {
  import opened PhpValues
  import opened Exceptions
  import opened Client
  import DomainModel
  import PaginationModel

  const DataKey := "data"
  const PaginationKey := "pagination"
  const DomainKey := "domain"
  const DkimKeyLengthKey := "dkim_key_length"

  /** The collection endpoint, without the trailing '/' of the per-domain endpoints. */
  const DomainsRoot := "/api/domains"
  const DefaultDkimKeyLength := 2048

  function DomainEndpoint(domain: string): string {
    DomainsPath + domain
  }

  function SetupAuthDomainEndpoint(domain: string): string {
    DomainsPath + domain + "/setup-auth-domain"
  }

  function VerifyMandatoryEndpoint(domain: string): string {
    DomainsPath + domain + "/verify-mandatory"
  }

  function VerifyAuthDomainEndpoint(domain: string): string {
    DomainsPath + domain + "/verify-auth-domain"
  }

  /** The body of `createDomain`: the name and the DKIM key length, nothing else. */
  function CreateBody(domain: string, dkimKeyLength: int): (r: PhpArray)
    ensures UniqueKeys(r) && |r| == 2
    ensures Get(r, StrKey(DomainKey)) == Str(domain) && Get(r, StrKey(DkimKeyLengthKey)) == Int(dkimKeyLength)
  {
    assert DomainKey[1] != DkimKeyLengthKey[1];
    var r := [(StrKey(DomainKey), Str(domain)), (StrKey(DkimKeyLengthKey), Int(dkimKeyLength))];
    assert r[1..] == [r[1]] && Lookup(r[1..], StrKey(DkimKeyLengthKey)) == Some(Int(dkimKeyLength));
    r
  }

  /** What `listDomains` returns: the typed domains and the pagination block or null. */
  datatype DomainPage = DomainPage(data: seq<DomainModel.Domain>, pagination: Option<PaginationModel.Pagination>)

  /** A response the shaping can turn into domains without a TypeError. */
  predicate Shapeable(response: PhpArray) {
    && (forall v :: v in Items(Get(response, StrKey(DataKey))) ==> DomainModel.Accepts(v))
    && (IsSet(response, StrKey(PaginationKey)) ==> PaginationModel.Accepts(Get(response, StrKey(PaginationKey))))
  }

  /** One domain per element of `data` (none when it is absent), in order, with the element's
      values; the pagination block exactly when the response has one. */
  predicate Shaped(response: PhpArray, page: DomainPage)
    reads page.data, if page.pagination.Some? then {page.pagination.value} else {}
  {
    var items := Items(Get(response, StrKey(DataKey)));
    && |page.data| == |items|
    && (forall i :: 0 <= i < |items| ==>
          items[i].Arr? && page.data[i].ToArray() == Project(items[i].entries, DomainModel.Keys))
    && (page.pagination.Some? <==> IsSet(response, StrKey(PaginationKey)))
    && (page.pagination.Some? ==>
          Get(response, StrKey(PaginationKey)).Arr? &&
          page.pagination.value.ToArray() == Project(Get(response, StrKey(PaginationKey)).entries, PaginationModel.Keys))
  }

  /** The outcome of `listDomains` once the client has answered. */
  predicate ListedFrom(answer: Result<PhpArray, Raised>, r: Result<DomainPage, Raised>)
    reads if r.Success? then r.value.data else []
    reads if r.Success? && r.value.pagination.Some? then {r.value.pagination.value} else {}
  {
    match answer
    case Failure(e) => r == Failure(e)
    case Success(response) =>
      if Shapeable(response) then r.Success? && Shaped(response, r.value) else r == Failure(TypeError)
  }

  /** The shaping half of `listDomains`: type the domains, then the pagination block. */
  method ShapePage(response: PhpArray) returns (r: Result<DomainPage, Raised>)
    ensures Shapeable(response) ==> r.Success? && Shaped(response, r.value)
    ensures !Shapeable(response) ==> r == Failure(TypeError)
  {
    var items := Items(Get(response, StrKey(DataKey)));
    var domains := DomainModel.BuildAll(items);
    if domains.Failure? {
      assert !Shapeable(response) by {
        var i :| 0 <= i < |items| && !DomainModel.Accepts(items[i]);
        assert items[i] in items;
      }
      return Failure(domains.error);
    }
    var pagination := PaginationModel.BuildIfSet(Get(response, StrKey(PaginationKey)));
    if pagination.Failure? {
      return Failure(pagination.error);
    }
    r := Success(DomainPage(domains.value, pagination.value));
  }

  class DomainsApi {
    const client: SmtpClient

    constructor (client: SmtpClient)
      ensures this.client == client
    {
      this.client := client;
    }

    /** `listDomains`: one GET of the collection, then the domains typed. */
    method ListDomains(params: PhpArray := []) returns (r: Result<DomainPage, Raised>)
      modifies client`sent
      ensures client.sent == old(client.sent) + [client.Prepared("GET", DomainsRoot, Options(Query(params), [], false))]
      ensures ListedFrom(client.Answer(old(client.sent), client.sent[|client.sent| - 1]), r)
    {
      var response := client.Get(DomainsRoot, params);
      if response.Failure? {
        return Failure(response.error);
      }
      r := ShapePage(response.value);
    }

    /** `createDomain`: post exactly the name and the key length; the answer as it is. */
    method CreateDomain(domain: string, dkimKeyLength: int := DefaultDkimKeyLength) returns (r: Result<PhpArray, Raised>)
      modifies client`sent
      ensures client.sent == old(client.sent) + [client.Prepared("POST", DomainsRoot, Options(Json(CreateBody(domain, dkimKeyLength)), [], false))]
      ensures r == client.Answer(old(client.sent), client.sent[|client.sent| - 1])
    {
      r := client.Post(DomainsRoot, CreateBody(domain, dkimKeyLength));
    }

    /** `getDomain`: the record under `data` typed; the source wraps it as
        `['success' => true, 'data' => ...]`. An absent record is null, which the constructor refuses. */
    method GetDomain(domain: string) returns (r: Result<DomainModel.Domain, Raised>)
      modifies client`sent
      ensures client.sent == old(client.sent) + [client.Prepared("GET", DomainEndpoint(domain), Options(Query([]), [], false))]
      ensures match client.Answer(old(client.sent), client.sent[|client.sent| - 1])
              case Failure(e) => r == Failure(e)
              case Success(response) =>
                var record := Get(response, StrKey(DataKey));
                (r.Success? <==> DomainModel.Accepts(record)) &&
                (r.Success? ==> DomainModel.BuiltFrom(r.value, record)) &&
                (r.Failure? ==> r.error == TypeError)
    {
      var response := client.Get(DomainEndpoint(domain));
      if response.Failure? {
        return Failure(response.error);
      }
      r := DomainModel.Build(Get(response.value, StrKey(DataKey)));
    }

    /** `updateDomain`: PUT the configuration as given; the answer's `data` (null when absent),
        which the source wraps as `['success' => true, 'data' => ...]`. */
    method UpdateDomain(domain: string, config: PhpArray) returns (r: Result<Value, Raised>)
      modifies client`sent
      ensures client.sent == old(client.sent) + [client.Prepared("PUT", DomainEndpoint(domain), Options(Json(config), [], false))]
      ensures match client.Answer(old(client.sent), client.sent[|client.sent| - 1])
              case Failure(e) => r == Failure(e)
              case Success(response) => r == Success(Get(response, StrKey(DataKey)))
    {
      var response := client.Put(DomainEndpoint(domain), config);
      if response.Failure? {
        return Failure(response.error);
      }
      r := Success(Get(response.value, StrKey(DataKey)));
    }

    /** `deleteDomain`: the client's answer as it is. */
    method DeleteDomain(domain: string) returns (r: Result<PhpArray, Raised>)
      modifies client`sent
      ensures client.sent == old(client.sent) + [client.Prepared("DELETE", DomainEndpoint(domain), Options(Query([]), [], false))]
      ensures r == client.Answer(old(client.sent), client.sent[|client.sent| - 1])
    {
      r := client.Delete(DomainEndpoint(domain));
    }

    /** `setupAuthDomain`: POST the configuration as given; the answer as it is. */
    method SetupAuthDomain(domain: string, config: PhpArray) returns (r: Result<PhpArray, Raised>)
      modifies client`sent
      ensures client.sent == old(client.sent) + [client.Prepared("POST", SetupAuthDomainEndpoint(domain), Options(Json(config), [], false))]
      ensures r == client.Answer(old(client.sent), client.sent[|client.sent| - 1])
    {
      r := client.Post(SetupAuthDomainEndpoint(domain), config);
    }

    /** `verifyMandatoryRecords`: an empty POST; the answer as it is. */
    method VerifyMandatoryRecords(domain: string) returns (r: Result<PhpArray, Raised>)
      modifies client`sent
      ensures client.sent == old(client.sent) + [client.Prepared("POST", VerifyMandatoryEndpoint(domain), Options(Json([]), [], false))]
      ensures r == client.Answer(old(client.sent), client.sent[|client.sent| - 1])
    {
      r := client.Post(VerifyMandatoryEndpoint(domain));
    }

    /** `verifyAuthDomainRecords`: an empty POST; the answer as it is. */
    method VerifyAuthDomainRecords(domain: string) returns (r: Result<PhpArray, Raised>)
      modifies client`sent
      ensures client.sent == old(client.sent) + [client.Prepared("POST", VerifyAuthDomainEndpoint(domain), Options(Json([]), [], false))]
      ensures r == client.Answer(old(client.sent), client.sent[|client.sent| - 1])
    {
      r := client.Post(VerifyAuthDomainEndpoint(domain));
    }
  }

  // ---------------------------------------------------------------------
  // Lemmas

  /** No endpoint under `/api/domains` is a `/api/v4/` endpoint. */
  lemma NotV4(e: string)
    requires StartsWith(e, DomainsRoot)
    ensures !StartsWith(e, V4Prefix)
  {
    assert e[5] == DomainsRoot[5] != V4Prefix[5];
  }

  /** Every endpoint of the façades lives under `/api/domains`, so the client signs it with the
      user name and token, never with the domain key pair, and never adds a domain header. */
  lemma SignedAsUser(client: SmtpClient, e: string, options: Options)
    requires StartsWith(e, DomainsRoot)
    ensures client.Signs(e) <==> Truthy(client.username) && Truthy(client.token)
    ensures Lookup(client.AddAuthenticationHeaders(options, e).headers, StrKey(DomainHeader)) ==
            Lookup(options.headers, StrKey(DomainHeader))
  {
    NotV4(e);
  }

  /** The per-domain endpoints of every façade (`/api/domains/{domain}...`) are under `/api/domains`. */
  lemma UnderDomainsRoot(domain: string, tail: string)
    ensures StartsWith(DomainsPath + domain + tail, DomainsRoot)
  {
    var e := DomainsPath + domain + tail;
    assert e[..|DomainsRoot|] == DomainsPath[..|DomainsRoot|];
  }
}
