# KirimEmail SMTP PHP SDK in Dafny

This project models the core of the KirimEmail SMTP PHP SDK. The SDK is a thin client for the KirimEmail SMTP service's REST API. The model covers four parts:

- **The HTTP client** (`SmtpClient`). It signs every request with HTTP basic authentication: the account's user name and token, or for `/api/v4/` endpoints the domain API key and secret plus a `domain` header. It sends the request once and turns the reply into a decoded array. An error status becomes one of the SDK's exceptions, chosen by the status code. The client also builds multipart bodies and reads server-sent event streams line by line.
- **The exception hierarchy.** `ApiException` carries an optional map from field name to error messages. Four subclasses each pin a code: 422, 401, 404 and 500.
- **The typed records** returned by the API: `Pagination`, `Credential`, `Suppression`, `LogEntry` and `Domain`. Each has a constructor from a decoded array, chainable setters, date helpers and `toArray`.
- **The five API façades:** suppressions, logs, messages, credentials and domains. They check a request's parameters before sending it, build the endpoint and the payload, call the client, and turn the answer into typed records.

How PHP is represented:

- **Values.** Decoded JSON and PHP arrays are `PhpValues.Value`: null, booleans, integers, strings and ordered arrays. An ordered array is a list of key/value pairs, with integer or string keys.
- **Library functions.** `base64_encode`, `json_decode`, `json_encode`, `filter_var(FILTER_VALIDATE_EMAIL)`, `basename`, DateTime parsing and formatting, and `(int)` of a string are fields of a `Library` value. They are left abstract.
- **The network.** The HTTP library and the server behind it are one function, `Server`. It maps the requests sent so far and a new request to a reply. The client records every request it hands over in `sent`, so each façade method states which request, if any, it sent.
- **Records.** Records are classes whose properties the setters update in place.
- **Failures.** A call either returns a value or fails with a `Raised`: an `ApiException`, a PHP `TypeError`, or an exception of the HTTP library that the client does not catch.
- **TypeErrors.** The model has a TypeError wherever PHP raises one. Every file declares strict types, so a typed property, parameter or return type refuses a value of the wrong type: for example, a record built from a non-array, an integer e-mail address, or an integer error message handed to an exception's `string $message`.

## Model

| member | source | states |
|---|---|---|
| Exceptions.FirstListIndex | src/Exception/ApiException.php:29-42 | finds the first field whose errors are a non-empty array: none before it qualifies, and None means no field qualifies |
| Exceptions.ApiException.FirstErrorEntry | src/Exception/ApiException.php:29-42 | null when there are no errors or no field has a non-empty list; otherwise entry 0 of the first such field's list |
| Exceptions.ApiException.GetFirstError | src/Exception/ApiException.php:29-42 | null exactly when that entry is null, the text exactly when it is a string; any other entry violates the `?string` return type and raises a TypeError |
| Exceptions.ApiException.FieldErrorsEntry | src/Exception/ApiException.php:44-47 | non-null exactly when the field is set in the errors; then it is the value stored under the field |
| Exceptions.ApiException.GetFieldErrors | src/Exception/ApiException.php:44-47 | null exactly when there are no errors or the field is unset; an array entry is returned as stored; any other entry raises a TypeError (return type `?array`) |
| Exceptions.ApiException.HasFieldError | src/Exception/ApiException.php:49-52 | holds exactly when the field's entry is set and not PHP-empty; it implies `hasErrors()` |
| Exceptions.NewApiException | src/Exception/ApiException.php:13-17 | the message, code and errors are stored unchanged, as the base kind |
| Exceptions.NewValidationException | src/Exception/ValidationException.php:9-12 | the code is always 422; message and errors are kept; `hasErrors()` holds exactly when the errors are a non-empty array |
| Exceptions.NewAuthenticationException | src/Exception/AuthenticationException.php:9-12 | code 401 and no errors, so `hasErrors`, `getFirstError` and every `getFieldErrors`/`hasFieldError` report nothing |
| Exceptions.NewNotFoundException | src/Exception/NotFoundException.php:9-12 | code 404 and no errors, so no accessor reports a field error |
| Exceptions.NewServerException | src/Exception/ServerException.php:9-12 | code 500 and no errors, so no accessor reports a field error |
| Exceptions.FirstFailure | src/Api/LogsApi.php:159-198 | an ordered validation chain: passes exactly when every check passes; otherwise the outcome of the first check that does not pass |
| Exceptions.ValidationWithoutErrors | src/Client/SmtpClient.php:212 | a ValidationException built with the client's default errors `[]` has no errors and no first error |
| Exceptions.FirstErrorSkipsEmptyField | src/Exception/ApiException.php:29-42 | `{to: [], subject: ["required"]}` gives the first error "required": an empty list is skipped |
| Exceptions.FirstErrorFound | src/Exception/ApiException.php:29-42 | if some field's errors are a non-empty list with a non-null entry 0, the first-error entry is non-null |
| Client.RTrimSlash | src/Client/SmtpClient.php:38 | the result is the longest prefix of the URL that does not end in '/'; everything removed is '/' |
| Client.SmtpClient.constructor | src/Client/SmtpClient.php:27-51 | the four credentials are stored as given, the base URL without trailing slashes, and nothing has been sent |
| Client.SmtpClient.SetBaseUrl | src/Client/SmtpClient.php:229-243 | the new base URL is the argument without trailing slashes and never ends in '/' |
| Client.FirstDomainMatch | src/Client/SmtpClient.php:177 | the leftmost position where `/api/domains/` is followed by a character other than '/' |
| Client.Segment | src/Client/SmtpClient.php:177 | the capture `[^/]+`: the longest '/'-free prefix, ended by '/' or the end of the text |
| Client.ExtractDomain | src/Client/SmtpClient.php:174-181 | None exactly when the pattern matches nowhere; otherwise a non-empty segment taken at the leftmost match |
| Client.DomainEndpointNamesDomain | src/Client/SmtpClient.php:174-181 | for `/api/domains/{domain}{tail}` with a '/'-free domain and a tail that starts with '/' (or is empty), the extracted domain is `domain` |
| Client.ExtractDomainOfV4Endpoint | src/Client/SmtpClient.php:174-181 | `/api/v4/messages` and `/api/v4/domains/acme.com/x` contain no `/api/domains/`, so their domain header is null |
| Client.SmtpClient.AddAuthenticationHeaders | src/Client/SmtpClient.php:146-172 | `/api/v4/` endpoints: with both domain key and secret truthy, Authorization is basic auth of key:secret, and `domain` is the extracted domain unless already set or the body is multipart. Other endpoints: with user name and token truthy, basic auth of user:token. Otherwise the options are unchanged. No other header, the body or the stream flag ever change |
| Client.SmtpClient.Prepared | src/Client/SmtpClient.php:131-133 | the request handed to the HTTP library carries the current base URL, the method, the endpoint and the signed options |
| Client.HandleErrorResponse | src/Client/SmtpClient.php:206-227 | the message is `message`, else `error`, else "Unknown API error". 400 and 422 give a ValidationException with code 422 and errors `errors ?? []`; 401 and 403 an AuthenticationException with code 401; 404 a NotFoundException; 500 and above a ServerException with code 500; any other status an ApiException with that status as code. A TypeError occurs exactly when the message is not a string (an integer, boolean or array), or the errors of a 400/422 are not an array |
| Client.ErrorMessageExamples | src/Client/SmtpClient.php:206-227 | a numeric message 42 under 404, or a boolean message under 422, raises a TypeError; a response without message or error gets "Unknown API error"; `error` is used when `message` is absent |
| Client.ParseResponse | src/Client/SmtpClient.php:183-204 | an empty body (or "0") gives `{success: status < 400}`. Undecodable JSON throws "Invalid JSON response: ...". A status of 400 or more always fails, through HandleErrorResponse when the JSON is an array. A success is the decoded array of a status below 400, and a decoded non-array raises a TypeError |
| Client.ConstructApiException | src/Exception/ApiException.php:13-17 | an array or null as the `?array $errors` argument is stored; an exception object there raises a TypeError |
| Client.NetworkError | src/Client/SmtpClient.php:142 | the network failure, as intended: an ApiException with message "Network error: ...", code 0 and no errors |
| Client.NetworkErrorAsWrittenIsTypeError | src/Client/SmtpClient.php:142 | as written, the caught exception object goes in the errors argument, so every network failure surfaces as a TypeError and never as the intended exception |
| Client.RequestOutcome | src/Client/SmtpClient.php:131-144 | a received response is parsed. A request exception rethrows what its response's parsing throws; if it has no response, or that response parses cleanly, it becomes the corrected network error of the Findings table (as written, a TypeError). Any other library failure passes through |
| Client.SmtpClient.Request | src/Client/SmtpClient.php:131-144 | exactly one request, the prepared one, is appended to what was sent; the result is the server's answer to it |
| Client.SmtpClient.Get | src/Client/SmtpClient.php:53-59 | sends one GET with the parameters as the query and the given headers, and returns its answer |
| Client.SmtpClient.Post | src/Client/SmtpClient.php:61-67 | sends one POST with the data as the JSON body, and returns its answer |
| Client.SmtpClient.Put | src/Client/SmtpClient.php:115-121 | sends one PUT with the data as the JSON body, and returns its answer |
| Client.SmtpClient.Delete | src/Client/SmtpClient.php:123-129 | sends one DELETE with the parameters as the query, and returns its answer |
| Client.ItemParts | src/Client/SmtpClient.php:75-81 | an array field gives one `name[]` part per item, in order, carrying the item |
| Client.IndexedFileParts | src/Client/SmtpClient.php:92-99 | an array of files gives one `name[index]` part per path, opened from that path with the path's basename as filename; it succeeds exactly when every path is a string |
| Client.FieldPartsAreValues | src/Client/SmtpClient.php:73-88 | every form-field part carries a value and has no filename |
| Client.FilePartsShape | src/Client/SmtpClient.php:90-107 | building the file parts succeeds exactly when every path is a string (else a TypeError); every file part is an opened file named by its basename |
| Client.FileFailureIsFinal | src/Client/SmtpClient.php:90-107 | one file entry with a non-string path makes the whole multipart body fail with a TypeError |
| Client.FieldPartsCount | src/Client/SmtpClient.php:73-88 | the form fields give one part per scalar field and one per item of an array field |
| Client.FilePartsCount | src/Client/SmtpClient.php:90-107 | the files give one part per single file and one per path of an array entry |
| Client.MultipartLayout | src/Client/SmtpClient.php:69-113 | the body is built exactly when every file path is a string. It then has one part per scalar and per array item: first every form-field part (a value, no filename), then every file part (an opened file named by its basename) |
| Client.BuildFieldParts | src/Client/SmtpClient.php:73-88 | the loop over the form fields produces exactly the field parts |
| Client.BuildFileParts | src/Client/SmtpClient.php:90-107 | the loop over the files produces exactly the file parts, or the TypeError of the first non-string path |
| Client.SmtpClient.PostMultipart | src/Client/SmtpClient.php:69-113 | when the parts cannot be built, nothing is sent and the TypeError is returned; otherwise one POST with those parts as multipart body is sent and its answer returned |
| Client.LineLength | src/Client/SmtpClient.php:264 | a line read is non-empty for a non-empty stream, holds no '\n' before its end, and ends with '\n' unless it is the rest of the stream |
| Client.LineEvents | src/Client/SmtpClient.php:265-276 | a line yields at most one event, exactly when it starts with "data: ", its payload is not "[DONE]" and the payload decodes; the event is the decoded payload |
| Client.SseEventsAppend | src/Client/SmtpClient.php:263-277 | splitting a stream after a complete line does not change its events: the events of the halves concatenate |
| Client.DoneIsNotAnEvent | src/Client/SmtpClient.php:269 | the final line "data: [DONE]" yields nothing |
| Client.SingleLineEvents | src/Client/SmtpClient.php:263-277 | a body of one complete line yields that line's events |
| Client.DoneDoesNotStopTheStream | src/Client/SmtpClient.php:263-277 | a "[DONE]" line ends nothing: the lines after it are still read and yield their events |
| Client.DecodeLine | src/Client/SmtpClient.php:265-276 | the loop body keeps exactly the events of its line |
| Client.ReadEvents | src/Client/SmtpClient.php:263-277 | the read loop yields exactly the events of the whole body, line by line |
| Client.SmtpClient.Stream | src/Client/SmtpClient.php:250-278 | sends one signed GET with the stream flag and the parameters as query; the result is the events of the reply's body whatever its status, or the library's failure |
| PaginationModel.CeilDiv | src/Model/Pagination.php:68-74 | `ceil(total / limit)` without floating point: the least integer not below the quotient, for either sign of the limit |
| PaginationModel.Pagination.constructor | src/Model/Pagination.php:16-22 | each property is read from its key and is null when absent; `toArray()` is then the input restricted to the four keys |
| PaginationModel.Pagination.GetTotalPages | src/Model/Pagination.php:68-74 | null exactly when total or limit is null or the limit is 0; otherwise the pages needed to hold `total` items at `limit` per page |
| PaginationModel.Pagination.HasNextPage | src/Model/Pagination.php:76-80 | implies that the page is set and lies below the total number of pages |
| PaginationModel.Pagination.HasPreviousPage | src/Model/Pagination.php:82-85 | holds exactly when the page is set and at least 2 |
| PaginationModel.Pagination.GetNextPage | src/Model/Pagination.php:87-90 | set exactly when there is a next page; then page + 1, never beyond the last page |
| PaginationModel.Pagination.GetPreviousPage | src/Model/Pagination.php:92-95 | set exactly when there is a previous page; then page - 1, never below 1 |
| PaginationModel.Pagination.ToArray | src/Model/Pagination.php:97-105 | the keys are total, page, limit and offset, in that order |
| PaginationModel.Pagination.JsonSerialize | src/Model/Pagination.php:107-110 | the JSON form is `toArray()` |
| PaginationModel.KeysDistinct | src/Model/Pagination.php:97-105 | no key of `toArray()` repeats |
| PaginationModel.ToArrayReadsBack | src/Model/Pagination.php:97-105 | `toArray()` is accepted by the constructor, reading it gives back every property, and restricting it to the keys changes nothing |
| PaginationModel.Build | src/Model/Pagination.php:16-22 | `new Pagination($v)` succeeds exactly when `$v` is an array of integers or nulls under the four keys (else a TypeError); the new object's `toArray()` is the input restricted to the keys |
| PaginationModel.BuildIfSet | src/Api/SuppressionsApi.php:39 | a null value gives no pagination; otherwise as Build |
| PaginationModel.NextPageMeansMoreItems | src/Model/Pagination.php:76-80 | with a positive limit, there is a next page exactly when `page * limit < total` |
| PaginationModel.TotalPagesExamples | src/Model/Pagination.php:68-74 | 100 items at 10 per page give 10 pages, 95 give 10, and 100 at 15 give 7 |
| CredentialModel.Credential.constructor | src/Model/Credential.php:25-40 | each of the thirteen properties is read from its key and is null when absent; `toArray()` is then the input restricted to the keys |
| CredentialModel.Credential.CreatedAtDateTime | src/Model/Credential.php:97-100 | null exactly when the timestamp is null or 0; otherwise that instant in UTC |
| CredentialModel.Credential.ModifiedAtDateTime | src/Model/Credential.php:102-105 | null exactly when the timestamp is null or 0; otherwise that instant in UTC |
| CredentialModel.Credential.DeletedAtDateTime | src/Model/Credential.php:107-110 | null exactly when the timestamp is null or 0; otherwise that instant in UTC |
| CredentialModel.Credential.LastPasswordChangedDateTime | src/Model/Credential.php:112-115 | null exactly when the timestamp is null or 0; otherwise that instant in UTC |
| CredentialModel.Credential.ToArray | src/Model/Credential.php:211-228 | the keys are the thirteen property keys, in the source's order |
| CredentialModel.Credential.JsonSerialize | src/Model/Credential.php:230-233 | the JSON form is `toArray()` |
| CredentialModel.KeysDistinct | src/Model/Credential.php:211-228 | no key of `toArray()` repeats |
| CredentialModel.ToArrayReadsBack | src/Model/Credential.php:211-228 | `toArray()` is accepted by the constructor, reading it gives back every property, and restricting it to the keys changes nothing |
| CredentialModel.Build | src/Model/Credential.php:25-40 | `new Credential($v)` succeeds exactly when `$v` is an array whose values fit the typed properties (else a TypeError); the new object's `toArray()` is the input restricted to the keys |
| CredentialModel.BuildAll | src/Api/CredentialsApi.php:36-38 | one new credential per item, in order, each built from its item; the first item the constructor refuses raises a TypeError |
| DomainModel.Domain.constructor | src/Model/Domain.php:29-48 | each of the seventeen properties is read from its key and is null when absent; `toArray()` is then the input restricted to the keys |
| DomainModel.Domain.CreatedAtDateTime | src/Model/Domain.php:116-119 | null exactly when the timestamp is null or 0; otherwise that instant in UTC |
| DomainModel.Domain.ModifiedAtDateTime | src/Model/Domain.php:121-124 | null exactly when the timestamp is null or 0; otherwise that instant in UTC |
| DomainModel.Domain.ToArray | src/Model/Domain.php:247-268 | the keys are the seventeen property keys, in the source's order |
| DomainModel.Domain.JsonSerialize | src/Model/Domain.php:270-273 | the JSON form is `toArray()` |
| DomainModel.KeysDistinct | src/Model/Domain.php:247-268 | no key of `toArray()` repeats |
| DomainModel.ToArrayReadsBack | src/Model/Domain.php:247-268 | `toArray()` is accepted by the constructor, reading it gives back every property, and restricting it to the keys changes nothing |
| DomainModel.Build | src/Model/Domain.php:29-48 | `new Domain($v)` succeeds exactly when `$v` is an array whose values fit the typed properties (else a TypeError); the new object's `toArray()` is the input restricted to the keys |
| DomainModel.BuildAll | src/Api/DomainsApi.php:33-35 | one new domain per item, in order, each built from its item; the first item the constructor refuses raises a TypeError |
| LogEntryModel.LogEntry.constructor | src/Model/LogEntry.php:31-39 | each of the six properties is read from its key and is null when absent; `toArray()` is then the input restricted to the keys |
| LogEntryModel.LogEntry.EventDateTime | src/Model/LogEntry.php:107-110 | null exactly when the timestamp is null or 0; otherwise that instant in UTC |
| LogEntryModel.EventPredicatesPartition | src/Model/LogEntry.php:112-165 | each of the eleven `is...()` predicates holds exactly for its own event constant; at most one holds; one holds exactly when the event type is a known one |
| LogEntryModel.LogEntry.ToArray | src/Model/LogEntry.php:167-177 | the keys are the six property keys, in the source's order |
| LogEntryModel.LogEntry.JsonSerialize | src/Model/LogEntry.php:179-182 | the JSON form is `toArray()` |
| LogEntryModel.KeysDistinct | src/Model/LogEntry.php:167-177 | no key of `toArray()` repeats |
| LogEntryModel.ToArrayReadsBack | src/Model/LogEntry.php:167-177 | `toArray()` is accepted by the constructor, reading it gives back every property, and restricting it to the keys changes nothing |
| LogEntryModel.Build | src/Model/LogEntry.php:31-39 | `new LogEntry($v)` succeeds exactly when `$v` is an array whose values fit the typed properties (else a TypeError); the new object's `toArray()` is the input restricted to the keys |
| LogEntryModel.BuildAll | src/Api/LogsApi.php:35-37 | one new entry per item, in order, each built from its item; the first item the constructor refuses raises a TypeError |
| SuppressionModel.Suppression.constructor | src/Model/Suppression.php:23-36 | each of the eleven properties is read from its key and is null when absent; `toArray()` is then the input restricted to the keys |
| SuppressionModel.Suppression.CreatedAtDateTime | src/Model/Suppression.php:159-162 | null exactly when the timestamp is null or 0; otherwise that instant in UTC |
| SuppressionModel.Suppression.ModifiedAtDateTime | src/Model/Suppression.php:164-167 | null exactly when the timestamp is null or 0; otherwise that instant in UTC |
| SuppressionModel.TypePredicatesExclusive | src/Model/Suppression.php:169-192 | at most one of unsubscribe, bounce and whitelist holds, and one does exactly when the type is one of the three; email and domain recipient kinds exclude each other |
| SuppressionModel.Suppression.ToArray | src/Model/Suppression.php:194-209 | the keys are the eleven property keys, in the source's order |
| SuppressionModel.Suppression.JsonSerialize | src/Model/Suppression.php:211-214 | the JSON form is `toArray()` |
| SuppressionModel.KeysDistinct | src/Model/Suppression.php:194-209 | no key of `toArray()` repeats |
| SuppressionModel.ToArrayReadsBack | src/Model/Suppression.php:194-209 | `toArray()` is accepted by the constructor, reading it gives back every property, and restricting it to the keys changes nothing |
| SuppressionModel.Build | src/Model/Suppression.php:23-36 | `new Suppression($v)` succeeds exactly when `$v` is an array whose values fit the typed properties (else a TypeError); the new object's `toArray()` is the input restricted to the keys |
| SuppressionModel.BuildAll | src/Api/SuppressionsApi.php:35-37 | one new suppression per item, in order, each built from its item; the first item the constructor refuses raises a TypeError |
| CredentialModel.Credential.SetId | src/Model/Credential.php:47-51 | stores the argument in `id`, may change no other property, and returns the same object so that calls chain |
| CredentialModel.Credential.SetUserSmtpGuid | src/Model/Credential.php:58-62 | stores the argument in `userSmtpGuid`, may change no other property, and returns the same object so that calls chain |
| CredentialModel.Credential.SetUsername | src/Model/Credential.php:69-73 | stores the argument in `username`, may change no other property, and returns the same object so that calls chain |
| CredentialModel.Credential.SetCreatedAt | src/Model/Credential.php:80-84 | stores the argument in `createdAt`, may change no other property, and returns the same object so that calls chain |
| CredentialModel.Credential.SetModifiedAt | src/Model/Credential.php:91-95 | stores the argument in `modifiedAt`, may change no other property, and returns the same object so that calls chain |
| CredentialModel.Credential.SetIsVerified | src/Model/Credential.php:122-126 | stores the argument in `isVerified`, may change no other property, and returns the same object so that calls chain |
| CredentialModel.Credential.SetVerified | src/Model/Credential.php:128-132 | stores the argument in `isVerified`, may change no other property, and returns the same object so that calls chain |
| CredentialModel.Credential.SetStatus | src/Model/Credential.php:139-143 | stores the argument in `status`, may change no other property, and returns the same object so that calls chain |
| CredentialModel.Credential.SetIsDeleted | src/Model/Credential.php:150-154 | stores the argument in `isDeleted`, may change no other property, and returns the same object so that calls chain |
| CredentialModel.Credential.SetDeletedAt | src/Model/Credential.php:161-165 | stores the argument in `deletedAt`, may change no other property, and returns the same object so that calls chain |
| CredentialModel.Credential.SetLastPasswordChanged | src/Model/Credential.php:172-176 | stores the argument in `lastPasswordChanged`, may change no other property, and returns the same object so that calls chain |
| CredentialModel.Credential.SetPassword | src/Model/Credential.php:183-187 | stores the argument in `password`, may change no other property, and returns the same object so that calls chain |
| CredentialModel.Credential.SetStrengthInfo | src/Model/Credential.php:194-198 | stores the argument in `strengthInfo`, may change no other property, and returns the same object so that calls chain |
| CredentialModel.Credential.SetRemoteSynced | src/Model/Credential.php:205-209 | stores the argument in `remoteSynced`, may change no other property, and returns the same object so that calls chain |
| DomainModel.Domain.SetId | src/Model/Domain.php:55-59 | stores the argument in `id`, may change no other property, and returns the same object so that calls chain |
| DomainModel.Domain.SetDomain | src/Model/Domain.php:66-70 | stores the argument in `domain`, may change no other property, and returns the same object so that calls chain |
| DomainModel.Domain.SetIsVerified | src/Model/Domain.php:77-81 | stores the argument in `isVerified`, may change no other property, and returns the same object so that calls chain |
| DomainModel.Domain.SetAuthDomain | src/Model/Domain.php:88-92 | stores the argument in `authDomain`, may change no other property, and returns the same object so that calls chain |
| DomainModel.Domain.SetCreatedAt | src/Model/Domain.php:99-103 | stores the argument in `createdAt`, may change no other property, and returns the same object so that calls chain |
| DomainModel.Domain.SetModifiedAt | src/Model/Domain.php:110-114 | stores the argument in `modifiedAt`, may change no other property, and returns the same object so that calls chain |
| DomainModel.Domain.SetTracklinkDomain | src/Model/Domain.php:131-135 | stores the argument in `tracklinkDomain`, may change no other property, and returns the same object so that calls chain |
| DomainModel.Domain.SetTracklinkDomainVerified | src/Model/Domain.php:142-146 | stores the argument in `tracklinkDomainIsVerified`, may change no other property, and returns the same object so that calls chain |
| DomainModel.Domain.SetAuthDomainVerified | src/Model/Domain.php:153-157 | stores the argument in `authDomainIsVerified`, may change no other property, and returns the same object so that calls chain |
| DomainModel.Domain.SetDnsSelector | src/Model/Domain.php:164-168 | stores the argument in `dnsSelector`, may change no other property, and returns the same object so that calls chain |
| DomainModel.Domain.SetDnsRecord | src/Model/Domain.php:175-179 | stores the argument in `dnsRecord`, may change no other property, and returns the same object so that calls chain |
| DomainModel.Domain.SetClickTrack | src/Model/Domain.php:186-190 | stores the argument in `clickTrack`, may change no other property, and returns the same object so that calls chain |
| DomainModel.Domain.SetOpenTrack | src/Model/Domain.php:197-201 | stores the argument in `openTrack`, may change no other property, and returns the same object so that calls chain |
| DomainModel.Domain.SetUnsubTrack | src/Model/Domain.php:208-212 | stores the argument in `unsubTrack`, may change no other property, and returns the same object so that calls chain |
| DomainModel.Domain.SetStatus | src/Model/Domain.php:219-223 | stores the argument in `status`, may change no other property, and returns the same object so that calls chain |
| DomainModel.Domain.SetAuthDomainDkimRecord | src/Model/Domain.php:230-234 | stores the argument in `authDomainDkimRecord`, may change no other property, and returns the same object so that calls chain |
| DomainModel.Domain.SetAuthDomainDkimSelector | src/Model/Domain.php:241-245 | stores the argument in `authDomainDkimSelector`, may change no other property, and returns the same object so that calls chain |
| LogEntryModel.LogEntry.SetId | src/Model/LogEntry.php:46-50 | stores the argument in `id`, may change no other property, and returns the same object so that calls chain |
| LogEntryModel.LogEntry.SetUserGuid | src/Model/LogEntry.php:57-61 | stores the argument in `userGuid`, may change no other property, and returns the same object so that calls chain |
| LogEntryModel.LogEntry.SetUserDomainGuid | src/Model/LogEntry.php:68-72 | stores the argument in `userDomainGuid`, may change no other property, and returns the same object so that calls chain |
| LogEntryModel.LogEntry.SetEventType | src/Model/LogEntry.php:79-83 | stores the argument in `eventType`, may change no other property, and returns the same object so that calls chain |
| LogEntryModel.LogEntry.SetMessageGuid | src/Model/LogEntry.php:90-94 | stores the argument in `messageGuid`, may change no other property, and returns the same object so that calls chain |
| LogEntryModel.LogEntry.SetTimestamp | src/Model/LogEntry.php:101-105 | stores the argument in `timestamp`, may change no other property, and returns the same object so that calls chain |
| SuppressionModel.Suppression.SetId | src/Model/Suppression.php:43-47 | stores the argument in `id`, may change no other property, and returns the same object so that calls chain |
| SuppressionModel.Suppression.SetUserGuid | src/Model/Suppression.php:54-58 | stores the argument in `userGuid`, may change no other property, and returns the same object so that calls chain |
| SuppressionModel.Suppression.SetUserDomainGuid | src/Model/Suppression.php:65-69 | stores the argument in `userDomainGuid`, may change no other property, and returns the same object so that calls chain |
| SuppressionModel.Suppression.SetType | src/Model/Suppression.php:76-80 | stores the argument in `suppressionType`, may change no other property, and returns the same object so that calls chain |
| SuppressionModel.Suppression.SetRecipientType | src/Model/Suppression.php:87-91 | stores the argument in `recipientType`, may change no other property, and returns the same object so that calls chain |
| SuppressionModel.Suppression.SetRecipient | src/Model/Suppression.php:98-102 | stores the argument in `recipient`, may change no other property, and returns the same object so that calls chain |
| SuppressionModel.Suppression.SetDescription | src/Model/Suppression.php:109-113 | stores the argument in `description`, may change no other property, and returns the same object so that calls chain |
| SuppressionModel.Suppression.SetSource | src/Model/Suppression.php:120-124 | stores the argument in `source`, may change no other property, and returns the same object so that calls chain |
| SuppressionModel.Suppression.SetTags | src/Model/Suppression.php:131-135 | stores the argument in `tags`, may change no other property, and returns the same object so that calls chain |
| SuppressionModel.Suppression.SetCreatedAt | src/Model/Suppression.php:142-146 | stores the argument in `createdAt`, may change no other property, and returns the same object so that calls chain |
| SuppressionModel.Suppression.SetModifiedAt | src/Model/Suppression.php:153-157 | stores the argument in `modifiedAt`, may change no other property, and returns the same object so that calls chain |
| PaginationModel.Pagination.SetTotal | src/Model/Pagination.php:29-33 | stores the argument in `total`, may change no other property, and returns the same object so that calls chain |
| PaginationModel.Pagination.SetPage | src/Model/Pagination.php:40-44 | stores the argument in `page`, may change no other property, and returns the same object so that calls chain |
| PaginationModel.Pagination.SetLimit | src/Model/Pagination.php:51-55 | stores the argument in `limit`, may change no other property, and returns the same object so that calls chain |
| PaginationModel.Pagination.SetOffset | src/Model/Pagination.php:62-66 | stores the argument in `offset`, may change no other property, and returns the same object so that calls chain |
| Suppressions.SuppressionParamsError | src/Api/SuppressionsApi.php:174-198 | passes exactly when the type (if set) is one of unsubscribe, bounce, whitelist, the page (if set) is at least 1, and the page size (if set) is 10 to 100; otherwise the message of the first of these checks that fails |
| Suppressions.ShapeList | src/Api/SuppressionsApi.php:34-45 | one suppression per element of `data`, in order, the pagination block when set, and the filters or `[]`; a TypeError exactly when a record or the block is refused |
| Suppressions.SuppressionsApi.constructor | src/Api/SuppressionsApi.php:16-19 | the façade keeps the client it is given |
| Suppressions.SuppressionsApi.GetSuppressions | src/Api/SuppressionsApi.php:29-46 | invalid parameters fail before anything is sent; otherwise one GET of the domain's suppressions with the parameters, and the answer shaped as ShapeList says |
| Suppressions.SuppressionsApi.GetUnsubscribeSuppressions | src/Api/SuppressionsApi.php:56-59 | always fails with the invalid-type message and sends nothing, because it asks for the type "unsubscribes" |
| Suppressions.SuppressionsApi.GetBounceSuppressions | src/Api/SuppressionsApi.php:69-72 | always fails with the invalid-type message and sends nothing, because it asks for the type "bounces" |
| Suppressions.SuppressionsApi.GetWhitelistSuppressions | src/Api/SuppressionsApi.php:82-85 | the list query with the type set to "whitelist" |
| Suppressions.SuppressionsApi.GetSuppressionsByType | src/Api/SuppressionsApi.php:96-100 | the list query with `type` overwritten by the argument |
| Suppressions.SuppressionsApi.SearchSuppressions | src/Api/SuppressionsApi.php:111-118 | the list query with the caller's parameters merged under `search` |
| Suppressions.SuppressionsApi.GetSuppressionsPaginated | src/Api/SuppressionsApi.php:130-138 | the list query with the caller's parameters merged under `page` and `per_page` |
| Suppressions.CreatedAfter | src/Api/SuppressionsApi.php:156-162 | keeps exactly the records that have a creation date not before the start, in order |
| Suppressions.SuppressionsApi.GetSuppressionsCreatedAfter | src/Api/SuppressionsApi.php:150-166 | the unfiltered list query; on success, the records of some list the query answered, filtered by CreatedAfter, with its pagination and filters |
| Suppressions.TypeArgumentDecides | src/Api/SuppressionsApi.php:96-100 | setting `type` decides the type check by the argument alone and leaves the page and page-size checks as they were |
| Suppressions.ShortcutTypes | src/Api/SuppressionsApi.php:56-85 | "unsubscribes" and "bounces" always fail the type check; "whitelist" passes it, so that query fails only on page or page size |
| Suppressions.SearchOverrides | src/Api/SuppressionsApi.php:111-118 | the explicit `search` wins over the caller's, and every other named parameter is kept |
| Suppressions.PaginatedOverrides | src/Api/SuppressionsApi.php:130-138 | the explicit `page` and `per_page` win, and every other named parameter is kept |
| Suppressions.CreatedAfterAppend | src/Api/SuppressionsApi.php:156-162 | the date filter works record by record: filtering a concatenation filters each part |
| Suppressions.CreatedAfterIdempotent | src/Api/SuppressionsApi.php:156-162 | filtering twice by the same date is filtering once |
| Logs.DateCheck | src/Api/LogsApi.php:162-172 | an absent date passes; a string passes exactly when it parses as ISO 8601 and prints back as itself; any other value raises a TypeError |
| Logs.LogParamsError | src/Api/LogsApi.php:159-198 | passes exactly when start, end, sender, recipient, limit (1 to 10000) and offset (0 or more) are all acceptable; otherwise the failure of the first unacceptable one, in that order |
| Logs.ShapePage | src/Api/LogsApi.php:34-47 | one entry per element of `data`, in order; count defaults to the number of entries, offset to 0, limit to 1000; a TypeError exactly when an entry or the pagination block is refused |
| Logs.LogsApi.constructor | src/Api/LogsApi.php:16-19 | the façade keeps the client it is given |
| Logs.LogsApi.GetLogs | src/Api/LogsApi.php:29-48 | invalid parameters fail before anything is sent; otherwise one GET of the domain's log with the parameters, shaped as ShapePage says |
| Logs.LogsApi.GetMessageLogs | src/Api/LogsApi.php:58-70 | one unchecked GET of the message's log, then one entry per element of `data` |
| Logs.Payloads | src/Api/LogsApi.php:89-93 | the `data` of each streamed event that has one, in order |
| Logs.YieldEntries | src/Api/LogsApi.php:89-93 | one new entry per payload, in order, stopping with a TypeError at the first payload the constructor refuses |
| Logs.LogsApi.StreamLogs | src/Api/LogsApi.php:80-94 | invalid parameters stop the stream before any request; otherwise one stream request with the limit defaulted to 50000, and the entries of its events' payloads |
| Logs.PayloadsAppend | src/Api/LogsApi.php:89-93 | the payloads of consecutive event runs concatenate |
| Logs.StreamLimit | src/Api/LogsApi.php:85-87 | a caller's limit is kept; without one the query gets 50000; no other parameter changes |
| Logs.SingleOverride | src/Api/LogsApi.php:106-150 | merging one string-keyed entry: that entry wins, every other string key is kept |
| Logs.LogsApi.GetLogsByDateRange | src/Api/LogsApi.php:106-114 | the log query with `start` and `end` set to the formatted dates |
| Logs.DateRangeDates | src/Api/LogsApi.php:106-114 | both dates are sent as strings, so their checks never raise a TypeError and are decided by the formatted text |
| Logs.LogsApi.GetLogsBySender | src/Api/LogsApi.php:125-132 | the log query with `sender` set |
| Logs.SenderDecides | src/Api/LogsApi.php:125-132 | the sender check is decided by the argument alone, and every other parameter is kept |
| Logs.LogsApi.GetLogsByRecipient | src/Api/LogsApi.php:143-150 | the log query with `recipient` set |
| Logs.RecipientDecides | src/Api/LogsApi.php:143-150 | the recipient check is decided by the argument alone, and every other parameter is kept |
| Messages.EmailCheck | src/Api/MessagesApi.php:153-156 | passes exactly when the value is a string `filter_var` accepts; otherwise the rejection, or a TypeError for a non-string |
| Messages.Then | src/Api/MessagesApi.php:65-100 | a passing check goes on with the rest; a failing one is the outcome |
| Messages.FirstMissing | src/Api/MessagesApi.php:67-72 | the first required field that is PHP-empty; None exactly when none is |
| Messages.FirstBadRecipient | src/Api/MessagesApi.php:79-89 | the first recipient the address check refuses; None exactly when every one passes |
| Messages.RecipientsError | src/Api/MessagesApi.php:79-89 | passes exactly when every address of `to` (each item of an array, or the single value) passes; otherwise the failure of the first one that does not |
| Messages.TrailingError | src/Api/MessagesApi.php:92-99 | passes exactly when `reply_to` is empty or valid and `from_name` is empty or a string; otherwise the first of these failures |
| Messages.EmailDataError | src/Api/MessagesApi.php:65-100 | passes exactly when the required fields are present, `from` is valid, every recipient is valid and the trailing checks pass; otherwise the first failure, in that order |
| Messages.TemplateDataError | src/Api/MessagesApi.php:108-145 | passes exactly when `template_guid` and `to` are present, every recipient is valid and the trailing checks pass; otherwise the first failure, in that order |
| Messages.BulkError | src/Api/MessagesApi.php:186-195 | passes exactly when `to` is an array of at most 1000 addresses; a present non-array or too many addresses is rejected with its own message, and an absent `to` is a TypeError |
| Messages.AttachmentData | src/Api/MessagesApi.php:168-175 | empty options leave the data unchanged; otherwise `attachment_options` is the JSON of the options; no other key changes |
| Messages.MessagesApi.constructor | src/Api/MessagesApi.php:14-17 | the façade keeps the client it is given |
| Messages.MessagesApi.SendMessage | src/Api/MessagesApi.php:28-37 | invalid data fails before anything is sent; otherwise one POST of the message, as JSON without files and as multipart with them |
| Messages.MessagesApi.SendTemplateMessage | src/Api/MessagesApi.php:48-57 | the same with the template checks and the template endpoint |
| Messages.MessagesApi.Send | src/Api/MessagesApi.php:32-36 | the dispatch: a JSON POST without files; with files, a multipart POST, or the TypeError of an unbuildable body with nothing sent |
| Messages.MessagesApi.SendMessageWithAttachmentOptions | src/Api/MessagesApi.php:168-175 | `sendMessage` of the data with the options added |
| Messages.MessagesApi.SendBulkMessage | src/Api/MessagesApi.php:186-198 | the bulk checks first, then the message checks, each failing before anything is sent; then `sendMessage` |
| Messages.SingleRecipientAsList | src/Api/MessagesApi.php:79-89 | a single address and a one-element list of it pass or fail the `to` check alike |
| Messages.PlainValidImpliesTemplateValid | src/Api/MessagesApi.php:65-145 | data that passes the plain-message checks and names a template passes the template checks |
| Messages.AttachmentOptionsKeepValidation | src/Api/MessagesApi.php:168-175 | adding attachment options never changes what the message checks decide |
| Messages.FirstMissingSameValues | src/Api/MessagesApi.php:67-72 | the first missing field depends only on the values under the required fields |
| Credentials.CredentialList | src/Api/CredentialsApi.php:35 | `data.data` when set, else `data` when set, else `[]` |
| Credentials.NestedAndFlatAgree | src/Api/CredentialsApi.php:35 | records sent flat under `data` or nested under `data.data` give the same list |
| Credentials.ShapePage | src/Api/CredentialsApi.php:33-46 | one credential per record of the list, in order, the pagination block under `data` when set, and the response's domain or the argument; a TypeError exactly when something is refused |
| Credentials.Flatten | src/Api/CredentialsApi.php:63-76 | a new credential from the record, with the password, strength information and sync flag replaced when given, and every other property read from the record |
| Credentials.Overlay | src/Api/CredentialsApi.php:63-76 | the setters for the given flattened fields; the other properties keep their values |
| Credentials.Enrich | src/Api/CredentialsApi.php:57-79 | without a credential record the answer is unchanged; otherwise the credential is built and enriched, or a TypeError when a value does not fit its setter |
| Credentials.CredentialsApi.constructor | src/Api/CredentialsApi.php:16-19 | the façade keeps the client it is given |
| Credentials.CredentialsApi.ListCredentials | src/Api/CredentialsApi.php:29-47 | one GET of the domain's credentials with the parameters, shaped as ShapePage says |
| Credentials.CredentialsApi.CreateCredential | src/Api/CredentialsApi.php:57-79 | one POST carrying exactly the user name; the credential of the answer enriched with `password` |
| Credentials.CredentialsApi.GetCredential | src/Api/CredentialsApi.php:89-97 | one GET; the record under `data` typed, or a TypeError when the constructor refuses it |
| Credentials.CredentialsApi.DeleteCredential | src/Api/CredentialsApi.php:107-110 | one DELETE; the answer as it is |
| Credentials.CredentialsApi.ResetPassword | src/Api/CredentialsApi.php:120-144 | one empty PUT; the credential of the answer enriched with `new_password`, strength information and sync flag |
| Domains.CreateBody | src/Api/DomainsApi.php:55-58 | exactly two distinct keys: the domain name and the DKIM key length |
| Domains.ShapePage | src/Api/DomainsApi.php:32-42 | one domain per element of `data`, in order, and the pagination block when set; a TypeError exactly when something is refused |
| Domains.DomainsApi.constructor | src/Api/DomainsApi.php:16-19 | the façade keeps the client it is given |
| Domains.DomainsApi.ListDomains | src/Api/DomainsApi.php:28-43 | one GET of `/api/domains` with the parameters, shaped as ShapePage says |
| Domains.DomainsApi.CreateDomain | src/Api/DomainsApi.php:53-61 | one POST of `/api/domains` carrying exactly the name and the key length (2048 by default); the answer as it is |
| Domains.DomainsApi.GetDomain | src/Api/DomainsApi.php:70-78 | one GET; the record under `data` typed, or a TypeError when the constructor refuses it |
| Domains.DomainsApi.UpdateDomain | src/Api/DomainsApi.php:88-96 | one PUT of the configuration; the answer's `data`, null when absent |
| Domains.DomainsApi.DeleteDomain | src/Api/DomainsApi.php:105-108 | one DELETE; the answer as it is |
| Domains.DomainsApi.SetupAuthDomain | src/Api/DomainsApi.php:118-121 | one POST of the configuration to the domain's setup endpoint; the answer as it is |
| Domains.DomainsApi.VerifyMandatoryRecords | src/Api/DomainsApi.php:130-133 | one empty POST to the mandatory-records endpoint; the answer as it is |
| Domains.DomainsApi.VerifyAuthDomainRecords | src/Api/DomainsApi.php:142-145 | one empty POST to the authentication-domain endpoint; the answer as it is |
| Domains.NotV4 | src/Client/SmtpClient.php:151 | no endpoint under `/api/domains` starts with `/api/v4/` |
| Domains.SignedAsUser | src/Client/SmtpClient.php:146-172 | every endpoint under `/api/domains` is signed with the user name and token, exactly when both are truthy, and never gets a `domain` header |
| Domains.UnderDomainsRoot | src/Api/DomainsApi.php:72 | every per-domain endpoint `/api/domains/{domain}...` lies under `/api/domains` |
| PhpRuntime.TimestampDateTime | src/Model/LogEntry.php:107-110 | `$this->timestamp ? new \DateTime('@' . $this->timestamp) : null`: null exactly for a null or zero timestamp, otherwise that instant in UTC |

## Left out

- HTTP transport details. The Guzzle client's timeouts, default headers (User-Agent, Accept, Content-Type) and the `http_errors => false` setting are not modelled. The HTTP library and the server are one function from the requests sent so far to a reply. `getBaseUrl` is a read of `baseUrl`.
- Getters of the records and of `ApiException::getErrors`/`hasErrors`. They are reads of a property, or predicates defined once (`HasErrors`).
- PHP built-ins. `json_decode`/`json_encode`, `base64_encode`, `filter_var` e-mail validation, `basename`, DateTime parsing and formatting, and `(int)` of a string are abstract functions of a `Library` value. Their own behaviour is not modelled.
- `fopen`. A file part is the path it was opened from (`OpenedFile(path)`). Failing to open it, and the stream resource itself, are not modelled.
- Floating-point numbers and numeric-string array keys. A JSON number is an integer here, and a key such as "1" is not normalised to the integer 1. `ceil()` of a float quotient is exact integer ceiling division (`CeilDiv`).
- Dates are Unix timestamps with a UTC offset (`DateTime(timestamp, offset)`) rather than DateTime objects. Microseconds and time zones other than an offset are not modelled.
- Generators are modelled eagerly. `streamLogs` runs its checks and sends its request when iteration starts, and stops at the first refused entry. The model returns the entries produced up to that point together with what stopped it. Laziness itself, and a consumer that stops early, are not modelled.
- Client.SmtpClient.Stream, Client.ReadEvents and Logs.LogsApi.StreamLogs model the evidently intended line reader, not the code as written. The body is always a Guzzle PSR-7 stream (src/Client/SmtpClient.php:20, 40), which has no `readline()` method, so `$stream->readline()` at src/Client/SmtpClient.php:264 raises an Error on any non-empty body. The model reads each line as `GuzzleHttp\Psr7\Utils::readLine` would, keeping its "\n".
- Credentials.Enrich: PHP builds the credential first and then calls the setters. The model checks every value's type before building. Both orders fail with a TypeError on the same inputs, but which statement raises it is not modelled.
- The tests and the usage example of the repository are not part of this model. Where they expect other behaviour, the model follows the code:
  - `getUnsubscribeSuppressions` and `getBounceSuppressions` always fail validation (`ShortcutTypes`).
  - A 400 response carries code 422.
  - Every status of 500 or more carries code 500.
  - A `[DONE]` line does not end the stream (`DoneDoesNotStopTheStream`).
  - The façades never use the domain API key pair (`SignedAsUser`).
- Client.RequestOutcome, Client.SmtpClient.Request and every façade method built on `request()` use the corrected `Client.NetworkError` for a request exception without an error response. As written, src/Client/SmtpClient.php:142 raises a TypeError there instead (`Client.NetworkErrorAsWrittenIsTypeError`, see Findings).
- Logs.StreamLimit: the default stream limit of 50000 is added after `validateLogParams` has run, so the 10000 bound on `limit` is never applied to it. The model states the defaulting, not a bound.

## Findings

| source | as written | input that shows it | evidently intended | confidence | as-written member | corrected member |
|---|---|---|---|---|---|---|
| src/Client/SmtpClient.php:142 | `new ApiException('Network error: ' . $e->getMessage(), 0, $e)` passes the caught exception as the third argument, which is `?array $errors` | any Guzzle `RequestException` without a response, such as a read timeout (a refused connection is a `ConnectException`, which this catch does not see) | an ApiException "Network error: ..." with code 0, the caught exception given as the fourth argument (`$previous`) | not executed | Client.NetworkErrorAsWrittenIsTypeError | Client.NetworkError |
