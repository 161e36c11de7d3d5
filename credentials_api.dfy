/** The credentials façade: list, create, read, delete and reset the SMTP credentials of a
    domain, turning the credential records of the answers into typed objects. */
module Credentials {
  import opened PhpValues
  import opened Exceptions
  import opened Client
  import CredentialModel
  import PaginationModel

  const DataKey := "data"
  const DomainKey := "domain"
  const PaginationKey := "pagination"
  const UsernameKey := "username"
  const CredentialKey := "credential"
  const PasswordKey := "password"
  const NewPasswordKey := "new_password"
  const StrengthInfoKey := "strength_info"
  const RemoteSyncedKey := "remote_synced"

  function CredentialsEndpoint(domain: string): string {
    DomainsPath + domain + "/credentials"
  }

  function CredentialEndpoint(domain: string, credential: string): string {
    DomainsPath + domain + "/credentials/" + credential
  }

  function ResetPasswordEndpoint(domain: string, credential: string): string {
    DomainsPath + domain + "/credentials/" + credential + "/reset-password"
  }

  /** `$response['data']['data'] ?? $response['data'] ?? []`: the list may come nested or flat. */
  function CredentialList(response: PhpArray): (r: Value)
    ensures Field(Get(response, StrKey(DataKey)), DataKey) != Null ==> r == Field(Get(response, StrKey(DataKey)), DataKey)
    ensures Field(Get(response, StrKey(DataKey)), DataKey) == Null && Get(response, StrKey(DataKey)) != Null ==>
              r == Get(response, StrKey(DataKey))
    ensures Get(response, StrKey(DataKey)) == Null ==> r == Arr([])
  {
    var data := Get(response, StrKey(DataKey));
    Coalesce(Field(data, DataKey), Coalesce(data, Arr([])))
  }

  /** What `listCredentials` returns: the typed credentials, the domain the response names
      (or the argument), and the pagination block or null. */
  datatype CredentialPage = CredentialPage(data: seq<CredentialModel.Credential>, domain: Value,
                                           pagination: Option<PaginationModel.Pagination>)

  /** The pagination block of the list, read under `data`. */
  function PaginationOf(response: PhpArray): Value {
    Field(Get(response, StrKey(DataKey)), PaginationKey)
  }

  predicate Shapeable(response: PhpArray) {
    && (forall v :: v in Items(CredentialList(response)) ==> CredentialModel.Accepts(v))
    && (PaginationOf(response) != Null ==> PaginationModel.Accepts(PaginationOf(response)))
  }

  predicate Shaped(response: PhpArray, domain: string, page: CredentialPage)
    reads page.data, if page.pagination.Some? then {page.pagination.value} else {}
  {
    var items := Items(CredentialList(response));
    && |page.data| == |items|
    && (forall i :: 0 <= i < |items| ==>
          items[i].Arr? && page.data[i].ToArray() == Project(items[i].entries, CredentialModel.Keys))
    && page.domain == Coalesce(Get(response, StrKey(DomainKey)), Str(domain))
    && (page.pagination.Some? <==> PaginationOf(response) != Null)
    && (page.pagination.Some? ==>
          PaginationOf(response).Arr? &&
          page.pagination.value.ToArray() == Project(PaginationOf(response).entries, PaginationModel.Keys))
  }

  /** The outcome of `listCredentials` once the client has answered. */
  predicate ListedFrom(answer: Result<PhpArray, Raised>, domain: string, r: Result<CredentialPage, Raised>)
    reads if r.Success? then r.value.data else []
    reads if r.Success? && r.value.pagination.Some? then {r.value.pagination.value} else {}
  {
    match answer
    case Failure(e) => r == Failure(e)
    case Success(response) =>
      if Shapeable(response) then r.Success? && Shaped(response, domain, r.value) else r == Failure(TypeError)
  }

  /** The shaping half of `listCredentials`. */
  method ShapePage(response: PhpArray, domain: string) returns (r: Result<CredentialPage, Raised>)
    ensures Shapeable(response) ==> r.Success? && Shaped(response, domain, r.value)
    ensures !Shapeable(response) ==> r == Failure(TypeError)
  {
    var items := Items(CredentialList(response));
    var credentials := CredentialModel.BuildAll(items);
    if credentials.Failure? {
      assert !Shapeable(response) by {
        var i :| 0 <= i < |items| && !CredentialModel.Accepts(items[i]);
        assert items[i] in items;
      }
      return Failure(credentials.error);
    }
    var pagination := PaginationModel.BuildIfSet(PaginationOf(response));
    if pagination.Failure? {
      return Failure(pagination.error);
    }
    r := Success(CredentialPage(credentials.value, Coalesce(Get(response, StrKey(DomainKey)), Str(domain)), pagination.value));
  }

  /** A create or reset answer: the response, whose `data.credential` entry is replaced by
      `credential` when that is present. */
  datatype CredentialAnswer = CredentialAnswer(response: PhpArray, credential: Option<CredentialModel.Credential>)

  /** The credential record inside an answer's `data`. */
  function CredentialRecord(response: PhpArray): Value {
    Field(Get(response, StrKey(DataKey)), CredentialKey)
  }

  /** A value under `key` in the answer's `data`, null when absent. */
  function DataField(response: PhpArray, key: string): Value {
    Field(Get(response, StrKey(DataKey)), key)
  }

  /** Every value the enrichment hands to a typed setter has that setter's type. */
  predicate Enrichable(response: PhpArray, passwordKey: string, withStrengthInfo: bool) {
    && CredentialModel.Accepts(CredentialRecord(response))
    && (DataField(response, passwordKey) == Null || DataField(response, passwordKey).Str?)
    && (withStrengthInfo ==> DataField(response, StrengthInfoKey) == Null || DataField(response, StrengthInfoKey).Arr?)
    && (DataField(response, RemoteSyncedKey) == Null || DataField(response, RemoteSyncedKey).Bool?)
  }

  /** The properties `new Credential($d)` takes from `d` that the flattening leaves alone. */
  predicate KeepsRecordFields(c: CredentialModel.Credential, d: PhpArray)
    requires CredentialModel.WellTyped(d)
    reads c`id, c`userSmtpGuid, c`username, c`isVerified, c`status, c`isDeleted,
          c`createdAt, c`modifiedAt, c`deletedAt, c`lastPasswordChanged
  {
    && c.id == AsInt(Get(d, StrKey(CredentialModel.IdKey)))
    && c.userSmtpGuid == AsStr(Get(d, StrKey(CredentialModel.UserSmtpGuidKey)))
    && c.username == AsStr(Get(d, StrKey(CredentialModel.UsernameKey)))
    && c.isVerified == AsBool(Get(d, StrKey(CredentialModel.IsVerifiedKey)))
    && c.status == AsBool(Get(d, StrKey(CredentialModel.StatusKey)))
    && c.isDeleted == AsBool(Get(d, StrKey(CredentialModel.IsDeletedKey)))
    && c.createdAt == AsInt(Get(d, StrKey(CredentialModel.CreatedAtKey)))
    && c.modifiedAt == AsInt(Get(d, StrKey(CredentialModel.ModifiedAtKey)))
    && c.deletedAt == AsInt(Get(d, StrKey(CredentialModel.DeletedAtKey)))
    && c.lastPasswordChanged == AsInt(Get(d, StrKey(CredentialModel.LastPasswordChangedKey)))
  }

  /** `c` is the credential of the record with the flattened fields laid over it: the password
      from `passwordKey`, the strength information (when asked for) and the sync flag, each only
      when set; every other property as the record has it. */
  predicate Enriched(response: PhpArray, passwordKey: string, withStrengthInfo: bool, c: CredentialModel.Credential)
    requires Enrichable(response, passwordKey, withStrengthInfo)
    reads c
  {
    var record := CredentialRecord(response).entries;
    && KeepsRecordFields(c, record)
    && c.password == (if DataField(response, passwordKey) != Null then AsStr(DataField(response, passwordKey))
                      else AsStr(Get(record, StrKey(CredentialModel.PasswordKey))))
    && c.strengthInfo == (if withStrengthInfo && DataField(response, StrengthInfoKey) != Null
                          then AsArr(DataField(response, StrengthInfoKey))
                          else AsArr(Get(record, StrKey(CredentialModel.StrengthInfoKey))))
    && c.remoteSynced == (if DataField(response, RemoteSyncedKey) != Null then AsBool(DataField(response, RemoteSyncedKey))
                          else AsBool(Get(record, StrKey(CredentialModel.RemoteSyncedKey))))
  }

  /** The answer of create or reset, given the client's result: unchanged without a credential
      record; otherwise the record typed and enriched, or a TypeError when a value does not fit. */
  predicate AnsweredFrom(answer: Result<PhpArray, Raised>, passwordKey: string, withStrengthInfo: bool,
                         r: Result<CredentialAnswer, Raised>)
    reads if r.Success? && r.value.credential.Some? then {r.value.credential.value} else {}
  {
    match answer
    case Failure(e) => r == Failure(e)
    case Success(response) =>
      if CredentialRecord(response) == Null then r == Success(CredentialAnswer(response, None))
      else if !Enrichable(response, passwordKey, withStrengthInfo) then r == Failure(TypeError)
      else
        && r.Success? && r.value.response == response && r.value.credential.Some?
        && Enriched(response, passwordKey, withStrengthInfo, r.value.credential.value)
  }

  /** `new Credential($d)`, then the setters for the flattened fields that are given. */
  method Flatten(d: PhpArray, password: Option<string>, strengthInfo: Option<PhpArray>, remoteSynced: Option<bool>)
    returns (c: CredentialModel.Credential)
    requires CredentialModel.WellTyped(d)
    ensures fresh(c) && KeepsRecordFields(c, d)
    ensures c.password == if password.Some? then password else AsStr(Get(d, StrKey(CredentialModel.PasswordKey)))
    ensures c.strengthInfo == if strengthInfo.Some? then strengthInfo else AsArr(Get(d, StrKey(CredentialModel.StrengthInfoKey)))
    ensures c.remoteSynced == if remoteSynced.Some? then remoteSynced else AsBool(Get(d, StrKey(CredentialModel.RemoteSyncedKey)))
  {
    c := new CredentialModel.Credential(d);
    assert KeepsRecordFields(c, d);
    Overlay(c, password, strengthInfo, remoteSynced);
  }

  /** The setters for the flattened fields that are given; nothing else changes. */
  method Overlay(c: CredentialModel.Credential, password: Option<string>, strengthInfo: Option<PhpArray>, remoteSynced: Option<bool>)
    modifies c`password, c`strengthInfo, c`remoteSynced
    ensures c.password == if password.Some? then password else old(c.password)
    ensures c.strengthInfo == if strengthInfo.Some? then strengthInfo else old(c.strengthInfo)
    ensures c.remoteSynced == if remoteSynced.Some? then remoteSynced else old(c.remoteSynced)
  {
    var self := c;
    if password.Some? {
      self := c.SetPassword(password);
    }
    if strengthInfo.Some? {
      self := c.SetStrengthInfo(strengthInfo);
    }
    if remoteSynced.Some? {
      self := c.SetRemoteSynced(remoteSynced);
    }
  }

  /** The enrichment shared by `createCredential` (password from `password`) and
      `resetPassword` (password from `new_password`, plus the strength information). A record
      the constructor refuses and a flattened value of the wrong type for its setter both raise
      a TypeError. */
  method Enrich(response: PhpArray, passwordKey: string, withStrengthInfo: bool) returns (r: Result<CredentialAnswer, Raised>)
    ensures AnsweredFrom(Success(response), passwordKey, withStrengthInfo, r)
    ensures r.Success? && r.value.credential.Some? ==> fresh(r.value.credential.value)
  {
    var record := CredentialRecord(response);
    if record == Null {
      return Success(CredentialAnswer(response, None));
    }
    if !CredentialModel.Accepts(record) {
      return Failure(TypeError);
    }
    var password := DataField(response, passwordKey);
    if password != Null && !password.Str? {
      return Failure(TypeError);
    }
    var strengthInfo := DataField(response, StrengthInfoKey);
    if withStrengthInfo && strengthInfo != Null && !strengthInfo.Arr? {
      return Failure(TypeError);
    }
    var remoteSynced := DataField(response, RemoteSyncedKey);
    if remoteSynced != Null && !remoteSynced.Bool? {
      return Failure(TypeError);
    }
    var c := Flatten(record.entries, AsStr(password), if withStrengthInfo then AsArr(strengthInfo) else None, AsBool(remoteSynced));
    r := Success(CredentialAnswer(response, Some(c)));
  }

  class CredentialsApi {
    const client: SmtpClient

    constructor (client: SmtpClient)
      ensures this.client == client
    {
      this.client := client;
    }

    /** `listCredentials`: one GET, then the nested or flat list typed. */
    method ListCredentials(domain: string, params: PhpArray := []) returns (r: Result<CredentialPage, Raised>)
      modifies client`sent
      ensures client.sent == old(client.sent) + [client.Prepared("GET", CredentialsEndpoint(domain), Options(Query(params), [], false))]
      ensures ListedFrom(client.Answer(old(client.sent), client.sent[|client.sent| - 1]), domain, r)
    {
      var response := client.Get(CredentialsEndpoint(domain), params);
      if response.Failure? {
        return Failure(response.error);
      }
      r := ShapePage(response.value, domain);
    }

    /** `createCredential`: post exactly the user name, then type the credential of the answer. */
    method CreateCredential(domain: string, username: string) returns (r: Result<CredentialAnswer, Raised>)
      modifies client`sent
      ensures client.sent == old(client.sent) +
                [client.Prepared("POST", CredentialsEndpoint(domain), Options(Json([(StrKey(UsernameKey), Str(username))]), [], false))]
      ensures AnsweredFrom(client.Answer(old(client.sent), client.sent[|client.sent| - 1]), PasswordKey, false, r)
    {
      var response := client.Post(CredentialsEndpoint(domain), [(StrKey(UsernameKey), Str(username))]);
      if response.Failure? {
        return Failure(response.error);
      }
      r := Enrich(response.value, PasswordKey, false);
    }

    /** `getCredential`: the record under `data` typed; the source wraps it as
        `['success' => true, 'data' => ...]`. */
    method GetCredential(domain: string, credential: string) returns (r: Result<CredentialModel.Credential, Raised>)
      modifies client`sent
      ensures client.sent == old(client.sent) + [client.Prepared("GET", CredentialEndpoint(domain, credential), Options(Query([]), [], false))]
      ensures match client.Answer(old(client.sent), client.sent[|client.sent| - 1])
              case Failure(e) => r == Failure(e)
              case Success(response) =>
                var record := Get(response, StrKey(DataKey));
                (r.Success? <==> CredentialModel.Accepts(record)) &&
                (r.Success? ==> CredentialModel.BuiltFrom(r.value, record)) &&
                (r.Failure? ==> r.error == TypeError)
    {
      var response := client.Get(CredentialEndpoint(domain, credential));
      if response.Failure? {
        return Failure(response.error);
      }
      r := CredentialModel.Build(Get(response.value, StrKey(DataKey)));
    }

    /** `deleteCredential`: the client's answer as it is. */
    method DeleteCredential(domain: string, credential: string) returns (r: Result<PhpArray, Raised>)
      modifies client`sent
      ensures client.sent == old(client.sent) + [client.Prepared("DELETE", CredentialEndpoint(domain, credential), Options(Query([]), [], false))]
      ensures r == client.Answer(old(client.sent), client.sent[|client.sent| - 1])
    {
      r := client.Delete(CredentialEndpoint(domain, credential));
    }

    /** `resetPassword`: an empty PUT, then the credential of the answer typed, with the new
        password, the strength information and the sync flag laid over it. */
    method ResetPassword(domain: string, credential: string) returns (r: Result<CredentialAnswer, Raised>)
      modifies client`sent
      ensures client.sent == old(client.sent) + [client.Prepared("PUT", ResetPasswordEndpoint(domain, credential), Options(Json([]), [], false))]
      ensures AnsweredFrom(client.Answer(old(client.sent), client.sent[|client.sent| - 1]), NewPasswordKey, true, r)
    {
      var response := client.Put(ResetPasswordEndpoint(domain, credential));
      if response.Failure? {
        return Failure(response.error);
      }
      r := Enrich(response.value, NewPasswordKey, true);
    }
  }

  // ---------------------------------------------------------------------
  // Lemmas

  /** The list endpoint may answer with the records nested under `data.data` or directly under
      `data`: both shapes give the same records, provided the flat list has no `data` entry. */
  lemma NestedAndFlatAgree(records: PhpArray, pagination: Value)
    requires Get(records, StrKey(DataKey)) == Null
    ensures var flat := [(StrKey(DataKey), Arr(records))];
            var nested := [(StrKey(DataKey), Arr([(StrKey(DataKey), Arr(records)), (StrKey(PaginationKey), pagination)]))];
            Items(CredentialList(flat)) == Items(CredentialList(nested)) == Items(Arr(records))
  {
    var inner := [(StrKey(DataKey), Arr(records)), (StrKey(PaginationKey), pagination)];
    assert Get(inner, StrKey(DataKey)) == Arr(records);
  }
}
