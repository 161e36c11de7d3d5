/** The HTTP client every API class goes through. It signs each request with
    HTTP basic authentication (the account's user name and token, or for
    `/api/v4/` endpoints the domain API key and secret), sends it, and turns the
    reply into a decoded array or an exception chosen by the status code. It also
    reads server-sent event streams line by line. The HTTP server is a function
    from the requests sent so far and the new request to the reply. */
module Client {
  import opened PhpValues
  import opened PhpRuntime
  import opened Exceptions

  const DefaultBaseUrl := "https://smtp-app.kirim.email"

  /** Endpoints under this prefix authenticate with the domain API key. */
  const V4Prefix := "/api/v4/"

  /** The path segment after which an endpoint names its domain. */
  const DomainsPath := "/api/domains/"

  /** Server-sent event lines that carry a payload start with this. */
  const DataPrefix := "data: "

  const AuthorizationHeader := "Authorization"
  const DomainHeader := "domain"

  // ---------------------------------------------------------------------
  // Requests and replies

  /** What a multipart part carries: a form value, or a file opened for reading. */
  datatype PartContents = Contents(value: Value) | OpenedFile(path: string)

  datatype Part = Part(name: string, contents: PartContents, filename: Option<string>)

  /** The payload option of a request: `query`, `json` or `multipart`. */
  datatype Body = Query(params: PhpArray) | Json(data: PhpArray) | Multipart(parts: seq<Part>)

  datatype Options = Options(body: Body, headers: PhpArray, stream: bool)

  datatype HttpRequest = HttpRequest(baseUri: string, httpMethod: string, endpoint: string, options: Options)

  datatype HttpResponse = HttpResponse(status: int, body: string)

  /** What the HTTP library hands back: a response (of any status, since the client turns
      HTTP errors off), a RequestException that may carry a response, or another
      transfer failure such as a refused connection. */
  datatype Reply =
    | Received(response: HttpResponse)
    | RequestError(message: string, errorResponse: Option<HttpResponse>)
    | TransferError(message: string)

  /** The server: its reply to a request, given every request sent before it. */
  type Server = (seq<HttpRequest>, HttpRequest) -> Reply

  // ---------------------------------------------------------------------
  // Base URL

  /** `rtrim($s, '/')`. */
  function RTrimSlash(s: string): (r: string)
    ensures |r| <= |s| && r == s[..|r|]
    ensures r == [] || r[|r| - 1] != '/'
    ensures forall i :: |r| <= i < |s| ==> s[i] == '/'
    decreases |s|
  {
    if s != [] && s[|s| - 1] == '/' then RTrimSlash(s[..|s| - 1]) else s
  }

  // ---------------------------------------------------------------------
  // Authentication headers

  /** A PHP truthiness test of a `?string`: null, "" and "0" are false. */
  predicate Truthy(o: Option<string>) {
    o.Some? && !Falsy(Str(o.value))
  }

  function BasicAuth(lib: Library, user: string, secret: string): string {
    "Basic " + lib.base64Encode(user + ":" + secret)
  }

  /** `/api/domains/` starts at `i` and is followed by a character other than '/'. */
  predicate DomainMatchAt(e: string, i: nat) {
    i + |DomainsPath| < |e| && e[i..i + |DomainsPath|] == DomainsPath && e[i + |DomainsPath|] != '/'
  }

  /** The leftmost position at or after `i` where the domain pattern matches. */
  function FirstDomainMatch(e: string, i: nat): (r: Option<nat>)
    requires i <= |e|
    ensures r.Some? ==> i <= r.value && DomainMatchAt(e, r.value)
    ensures r.Some? ==> forall j :: i <= j < r.value ==> !DomainMatchAt(e, j)
    ensures r.None? ==> forall j :: i <= j ==> !DomainMatchAt(e, j)
    decreases |e| - i
  {
    if i == |e| then None
    else if DomainMatchAt(e, i) then Some(i)
    else FirstDomainMatch(e, i + 1)
  }

  /** The longest prefix of `s` without a '/'. */
  function Segment(s: string): (r: string)
    ensures |r| <= |s| && r == s[..|r|]
    ensures forall c :: c in r ==> c != '/'
    ensures |r| == |s| || s[|r|] == '/'
  {
    if s == [] || s[0] == '/' then [] else [s[0]] + Segment(s[1..])
  }

  /** The first capture of `/\/api\/domains\/([^\/]+)/` in the endpoint, if it matches. */
  function ExtractDomain(e: string): (r: Option<string>)
    ensures r.None? <==> forall i: nat :: !DomainMatchAt(e, i)
    ensures r.Some? ==> r.value != []
    ensures r.Some? ==> exists i: nat :: DomainMatchAt(e, i) && (forall j: nat :: j < i ==> !DomainMatchAt(e, j)) &&
                                         r.value == Segment(e[i + |DomainsPath|..])
  {
    match FirstDomainMatch(e, 0)
    case None => None
    case Some(i) =>
      var s := e[i + |DomainsPath|..];
      assert s[0] != '/';
      Some(Segment(s))
  }

  /** The segment of a '/'-free word followed by nothing or by a '/' is the word. */
  lemma {:induction false} SegmentOfWord(word: string, tail: string)
    requires '/' !in word && (tail == [] || tail[0] == '/')
    ensures Segment(word + tail) == word
    decreases |word|
  {
    if word == [] {
      assert word + tail == tail;
    } else {
      assert (word + tail)[1..] == word[1..] + tail;
      assert word[0] in word;
      SegmentOfWord(word[1..], tail);
    }
  }

  /** An endpoint under `/api/domains/` names its domain: the word after the prefix, up to the next '/'. */
  lemma DomainEndpointNamesDomain(domain: string, tail: string)
    requires domain != [] && '/' !in domain && (tail == [] || tail[0] == '/')
    ensures ExtractDomain(DomainsPath + domain + tail) == Some(domain)
  {
    var e := DomainsPath + domain + tail;
    assert e[..|DomainsPath|] == DomainsPath;
    assert e[|DomainsPath|] == domain[0] && domain[0] in domain;
    assert DomainMatchAt(e, 0);
    assert e[|DomainsPath|..] == domain + tail;
    SegmentOfWord(domain, tail);
  }

  /** A `/api/v4/` endpoint has no `/api/domains/` in its path, even when it names a domain
      after `/api/v4/domains/`, so its domain header is null. */
  lemma ExtractDomainOfV4Endpoint()
    ensures ExtractDomain("/api/v4/messages") == None
    ensures ExtractDomain("/api/v4/domains/acme.com/x") == None
  {
    var m := "/api/v4/messages";
    forall i: nat ensures !DomainMatchAt(m, i) {
      if i + |DomainsPath| < |m| {
        assert i <= 2;
        assert m[i + 5] != DomainsPath[5];
      }
    }
    var d := "/api/v4/domains/acme.com/x";
    forall i: nat ensures !DomainMatchAt(d, i) {
      if i + |DomainsPath| < |d| {
        NoDomainMatchAt(d, i);
      }
    }
  }

  /** The first thirteen characters of `/api/v4/domains/acme.com/x`. */
  lemma V4DomainChars(d: string)
    requires d == "/api/v4/domains/acme.com/x"
    ensures |d| == 26
    ensures d[0] == '/' && d[1] == 'a' && d[2] == 'p' && d[3] == 'i' && d[4] == '/' && d[5] == 'v' && d[6] == '4'
    ensures d[7] == '/' && d[8] == 'd' && d[9] == 'o' && d[10] == 'm' && d[11] == 'a' && d[12] == 'i'
  {
  }

  /** Positions 0 to 12 of `/api/v4/domains/acme.com/x` each differ from `/api/domains/` somewhere. */
  lemma NoDomainMatchAt(d: string, i: nat)
    requires d == "/api/v4/domains/acme.com/x" && i + |DomainsPath| < |d|
    ensures d[i..i + |DomainsPath|] != DomainsPath
  {
    V4DomainChars(d);
    var w := d[i..i + |DomainsPath|];
    if i == 0 {
      assert w[5] != DomainsPath[5];
    } else if i == 4 || i == 7 {
      assert w[1] != DomainsPath[1];
    } else {
      assert w[0] == d[i];
      assert d[i] != '/';
    }
  }

  // ---------------------------------------------------------------------
  // Replies

  /** `$data['message'] ?? $data['error'] ?? 'Unknown API error'`. */
  function ErrorMessage(data: PhpArray): Value {
    Coalesce(Get(data, StrKey("message")), Coalesce(Get(data, StrKey("error")), Str("Unknown API error")))
  }

  /** `$data['errors'] ?? []`. */
  function ErrorList(data: PhpArray): Value {
    Coalesce(Get(data, StrKey("errors")), Arr([]))
  }

  /** The exception thrown for an error status. The message is the response's `message`, else
      its `error`, else a fixed text; under strict types any message that is not a string makes
      the exception's `string $message` parameter fail with a TypeError. */
  function HandleErrorResponse(status: int, data: PhpArray): (r: Raised)
    ensures r == TypeError <==> !ErrorMessage(data).Str? || ((status == 400 || status == 422) && !ErrorList(data).Arr?)
    ensures r.Api? ==> r.ex.message == ErrorMessage(data).s
    ensures r.Api? && (status == 400 || status == 422) ==>
              r.ex.kind == Validation && r.ex.code == 422 && r.ex.errors == Some(ErrorList(data).entries)
    ensures r.Api? && (status == 401 || status == 403) ==>
              r.ex.kind == Authentication && r.ex.code == 401 && r.ex.errors == None
    ensures r.Api? && status == 404 ==> r.ex.kind == NotFound && r.ex.code == 404 && r.ex.errors == None
    ensures r.Api? && status >= 500 ==> r.ex.kind == Server && r.ex.code == 500 && r.ex.errors == None
    ensures r.Api? && status !in {400, 401, 403, 404, 422} && status < 500 ==>
              r.ex.kind == Generic && r.ex.code == status && r.ex.errors == None
    ensures !r.Transport?
  {
    var message := ErrorMessage(data);
    if status == 400 || status == 422 then
      var errors := ErrorList(data);
      if !message.Str? || !errors.Arr? then TypeError
      else Api(NewValidationException(message.s, Some(errors.entries)))
    else if !message.Str? then TypeError
    else if status == 401 || status == 403 then Api(NewAuthenticationException(message.s))
    else if status == 404 then Api(NewNotFoundException(message.s))
    else if status >= 500 then Api(NewServerException(message.s))
    else Api(NewApiException(message.s, status))
  }

  /** A numeric message is refused by the exception's `string` parameter, and a response without
      `message` or `error` gets the fixed text. */
  lemma ErrorMessageExamples()
    ensures HandleErrorResponse(404, [(StrKey("message"), Int(42))]) == TypeError
    ensures HandleErrorResponse(418, []) == Api(NewApiException("Unknown API error", 418))
    ensures HandleErrorResponse(500, [(StrKey("error"), Str("down"))]) == Api(NewServerException("down"))
    ensures HandleErrorResponse(422, [(StrKey("message"), Bool(true)), (StrKey("errors"), Arr([]))]) == TypeError
  {
  }

  /** The array a response decodes to, or what it throws. */
  function ParseResponse(lib: Library, response: HttpResponse): (r: Result<PhpArray, Raised>)
    ensures Falsy(Str(response.body)) ==> r == Success([(StrKey("success"), Bool(response.status < 400))])
    ensures !Falsy(Str(response.body)) && lib.jsonDecode(response.body).Failure? ==>
              r == Failure(Api(NewApiException("Invalid JSON response: " + lib.jsonDecode(response.body).error)))
    ensures r.Success? && !Falsy(Str(response.body)) ==>
              response.status < 400 && lib.jsonDecode(response.body) == Success(Arr(r.value))
    ensures !Falsy(Str(response.body)) && response.status >= 400 ==>
              r.Failure? && match lib.jsonDecode(response.body)
                            case Success(Arr(data)) => r.error == HandleErrorResponse(response.status, data)
                            case Success(_) => r.error == TypeError
                            case Failure(_) => r.error.Api?
    ensures !Falsy(Str(response.body)) && response.status < 400 && lib.jsonDecode(response.body).Success? ==>
              (r.Success? <==> lib.jsonDecode(response.body).value.Arr?)
    ensures r.Failure? ==> !r.error.Transport?
  {
    if Falsy(Str(response.body)) then Success([(StrKey("success"), Bool(response.status < 400))])
    else match lib.jsonDecode(response.body)
      case Failure(message) => Failure(Api(NewApiException("Invalid JSON response: " + message)))
      case Success(data) =>
        if response.status >= 400 then
          if data.Arr? then Failure(HandleErrorResponse(response.status, data.entries)) else Failure(TypeError)
        else if data.Arr? then Success(data.entries)
        else Failure(TypeError)
  }

  /** What `new ApiException(...)` receives as its `?array $errors` argument. */
  datatype ErrorsArgument = NoErrors | ErrorArray(errors: PhpArray) | ExceptionObject(message: string)

  /** `new ApiException($message, $code, $errors)`: anything but an array or null as `$errors`
      is refused by the parameter type. */
  function ConstructApiException(message: string, code: int, errors: ErrorsArgument): (r: Raised)
    ensures r == TypeError <==> errors.ExceptionObject?
    ensures r.Api? ==> r.ex == NewApiException(message, code, if errors.ErrorArray? then Some(errors.errors) else None)
  {
    match errors
    case NoErrors => Api(NewApiException(message, code))
    case ErrorArray(a) => Api(NewApiException(message, code, Some(a)))
    case ExceptionObject(_) => TypeError
  }

  /** The network-error exception as written: the caught exception object is passed as the
      third argument, which is the errors array, not the previous exception. */
  function NetworkErrorAsWritten(message: string): Raised {
    ConstructApiException("Network error: " + message, 0, ExceptionObject(message))
  }

  /** The network-error exception as intended: an ApiException with code 0 and no errors. */
  function NetworkError(message: string): (r: Raised)
    ensures r.Api? && r.ex.kind == Generic && r.ex.code == 0 && r.ex.errors == None
    ensures r.ex.message == "Network error: " + message
  {
    ConstructApiException("Network error: " + message, 0, NoErrors)
  }

  /** Every network error reaches the caller as a TypeError instead of an ApiException. */
  lemma NetworkErrorAsWrittenIsTypeError(message: string)
    ensures NetworkErrorAsWritten(message) == TypeError
    ensures NetworkErrorAsWritten(message) != NetworkError(message)
  {
  }

  /** The outcome of `request()` for a reply of the HTTP library: the parsed response; for a
      RequestException, whatever its response throws, else a network error; any other failure
      of the library passes through. */
  function RequestOutcome(lib: Library, reply: Reply): (r: Result<PhpArray, Raised>)
    ensures reply.Received? ==> r == ParseResponse(lib, reply.response)
    ensures reply.RequestError? ==> r.Failure?
    ensures reply.RequestError? && reply.errorResponse.Some? && ParseResponse(lib, reply.errorResponse.value).Failure? ==>
              r == ParseResponse(lib, reply.errorResponse.value)
    ensures reply.RequestError? && (reply.errorResponse.None? || ParseResponse(lib, reply.errorResponse.value).Success?) ==>
              r == Failure(NetworkError(reply.message))
    ensures reply.TransferError? ==> r == Failure(Transport(reply.message))
  {
    match reply
    case Received(response) => ParseResponse(lib, response)
    case RequestError(message, response) =>
      if response.Some? && ParseResponse(lib, response.value).Failure? then ParseResponse(lib, response.value)
      else Failure(NetworkError(message))
    case TransferError(message) => Failure(Transport(message))
  }

  // ---------------------------------------------------------------------
  // Server-sent events

  /** The length of the first line of `s`, its "\n" included (what a line reader returns). */
  function LineLength(s: string): (n: nat)
    ensures n <= |s| && (s != [] ==> n > 0)
    ensures forall i :: 0 <= i < n - 1 ==> s[i] != '\n'
    ensures n == |s| || s[n - 1] == '\n'
  {
    if s == [] then 0 else if s[0] == '\n' then 1 else 1 + LineLength(s[1..])
  }

  /** The events one line yields: a `data: ` line other than `[DONE]` whose payload decodes. */
  function LineEvents(lib: Library, line: string): (r: seq<Value>)
    ensures |r| <= 1
    ensures |r| == 1 <==> StartsWith(line, DataPrefix) && line[|DataPrefix|..] != "[DONE]" &&
                           lib.jsonDecode(line[|DataPrefix|..]).Success?
    ensures |r| == 1 ==> lib.jsonDecode(line[|DataPrefix|..]) == Success(r[0])
  {
    if Falsy(Str(line)) || line == "\n" then []
    else if !StartsWith(line, DataPrefix) then []
    else
      var data := line[|DataPrefix|..];
      if data == "[DONE]" then []
      else match lib.jsonDecode(data)
        case Success(decoded) => [decoded]
        case Failure(_) => []
  }

  /** The events of a whole stream body, line by line. */
  function SseEvents(lib: Library, body: string): seq<Value>
    decreases |body|
  {
    if body == [] then []
    else
      var n := LineLength(body);
      LineEvents(lib, body[..n]) + SseEvents(lib, body[n..])
  }

  lemma {:induction false} LineLengthAppend(a: string, b: string)
    requires a != [] && a[|a| - 1] == '\n'
    ensures LineLength(a + b) == LineLength(a)
    decreases |a|
  {
    if a[0] != '\n' {
      assert (a + b)[1..] == a[1..] + b;
      LineLengthAppend(a[1..], b);
    }
  }

  /** Splitting a stream at a line boundary does not change its events: the events of a body
      delivered in chunks are the events of the chunks, in order. */
  lemma {:induction false} SseEventsAppend(lib: Library, a: string, b: string)
    requires a == [] || a[|a| - 1] == '\n'
    ensures SseEvents(lib, a + b) == SseEvents(lib, a) + SseEvents(lib, b)
    decreases |a|
  {
    if a == [] {
      assert a + b == b;
    } else {
      var n := LineLength(a);
      var rest := a[n..];
      LineLengthAppend(a, b);
      assert (a + b)[..n] == a[..n];
      assert (a + b)[n..] == rest + b;
      assert rest == [] || rest[|rest| - 1] == '\n';
      SseEventsAppend(lib, rest, b);
      AppendAssociative(LineEvents(lib, a[..n]), SseEvents(lib, rest), SseEvents(lib, b));
    }
  }

  lemma AppendAssociative<T>(x: seq<T>, y: seq<T>, z: seq<T>)
    ensures x + (y + z) == (x + y) + z
  {
  }

  /** `[DONE]` is never an event. */
  lemma DoneIsNotAnEvent(lib: Library)
    ensures LineEvents(lib, "data: [DONE]") == []
  {
    assert "data: [DONE]"[|DataPrefix|..] == "[DONE]";
  }

  /** A body of one complete line yields that line's events. */
  lemma SingleLineEvents(lib: Library, text: string)
    requires '\n' !in text
    ensures SseEvents(lib, text + "\n") == LineEvents(lib, text + "\n")
  {
    var line := text + "\n";
    var n := LineLength(line);
    assert forall i :: 0 <= i < |text| ==> line[i] == text[i] && text[i] in text;
    assert line[..n] == line && line[n..] == [];
  }

  /** A `[DONE]` line ends nothing: the lines after it are still read. */
  lemma DoneDoesNotStopTheStream(lib: Library, line: string, rest: string)
    requires line == DataPrefix + "[DONE]" + "\n"
    ensures SseEvents(lib, line + rest) == LineEvents(lib, line) + SseEvents(lib, rest)
  {
    var text := line[..|line| - 1];
    assert text + "\n" == line;
    assert '\n' !in text;
    SingleLineEvents(lib, text);
    SseEventsAppend(lib, line, rest);
  }

  // ---------------------------------------------------------------------
  // Multipart bodies

  /** The parts of one form field whose value is an array: one `name[]` part per item. */
  function ItemParts(name: string, items: PhpArray): (r: seq<Part>)
    ensures |r| == |items|
    ensures forall i :: 0 <= i < |r| ==> r[i] == Part(name + "[]", Contents(items[i].1), None)
  {
    if items == [] then [] else ItemParts(name, items[..|items| - 1]) + [Part(name + "[]", Contents(items[|items| - 1].1), None)]
  }

  /** The parts of one form field. */
  function FieldEntryParts(entry: (Key, Value)): seq<Part> {
    if entry.1.Arr? then ItemParts(KeyText(entry.0), entry.1.entries)
    else [Part(KeyText(entry.0), Contents(entry.1), None)]
  }

  /** The parts of all form fields, field by field. */
  function FieldParts(data: PhpArray): seq<Part> {
    if data == [] then [] else FieldParts(data[..|data| - 1]) + FieldEntryParts(data[|data| - 1])
  }

  /** The parts of an array of files: `name[index]`; every path must be a string. */
  function IndexedFileParts(lib: Library, name: string, paths: PhpArray): (r: Result<seq<Part>, Raised>)
    ensures r.Success? <==> forall i :: 0 <= i < |paths| ==> paths[i].1.Str?
    ensures r.Success? ==> |r.value| == |paths|
    ensures r.Success? ==> forall i :: 0 <= i < |paths| ==>
              r.value[i] == Part(name + "[" + KeyText(paths[i].0) + "]", OpenedFile(paths[i].1.s), Some(lib.basename(paths[i].1.s)))
    ensures r.Failure? ==> r.error == TypeError
  {
    if paths == [] then Success([])
    else
      var last := paths[|paths| - 1];
      match IndexedFileParts(lib, name, paths[..|paths| - 1])
      case Failure(e) => Failure(e)
      case Success(ps) =>
        if last.1.Str? then
          Success(ps + [Part(name + "[" + KeyText(last.0) + "]", OpenedFile(last.1.s), Some(lib.basename(last.1.s)))])
        else Failure(TypeError)
  }

  /** The parts of one file entry: a path, or an array of paths. */
  function FileEntryParts(lib: Library, entry: (Key, Value)): Result<seq<Part>, Raised> {
    if entry.1.Arr? then IndexedFileParts(lib, KeyText(entry.0), entry.1.entries)
    else if entry.1.Str? then Success([Part(KeyText(entry.0), OpenedFile(entry.1.s), Some(lib.basename(entry.1.s)))])
    else Failure(TypeError)
  }

  /** The parts of all file entries, entry by entry; the first path that is not a string raises a TypeError. */
  function FileParts(lib: Library, files: PhpArray): Result<seq<Part>, Raised> {
    if files == [] then Success([])
    else match FileParts(lib, files[..|files| - 1])
      case Failure(e) => Failure(e)
      case Success(ps) =>
        match FileEntryParts(lib, files[|files| - 1])
        case Failure(e) => Failure(e)
        case Success(qs) => Success(ps + qs)
  }

  /** Every file path, direct or inside an array, is a string. */
  predicate FilePathsAreStrings(files: PhpArray) {
    forall i :: 0 <= i < |files| ==> EntryPathsAreStrings(files[i])
  }

  /** The path of one file entry, or each path of an array entry, is a string. */
  predicate EntryPathsAreStrings(entry: (Key, Value)) {
    if entry.1.Arr? then forall j :: 0 <= j < |entry.1.entries| ==> entry.1.entries[j].1.Str?
    else entry.1.Str?
  }

  /** The parts of a multipart body: every form field first, then every file. */
  function MultipartParts(lib: Library, data: PhpArray, files: PhpArray): Result<seq<Part>, Raised> {
    match FileParts(lib, files)
    case Failure(e) => Failure(e)
    case Success(fileParts) => Success(FieldParts(data) + fileParts)
  }

  /** Form-field parts carry a value and no filename. */
  lemma {:induction false} FieldPartsAreValues(data: PhpArray)
    ensures forall p :: p in FieldParts(data) ==> p.contents.Contents? && p.filename.None?
    decreases |data|
  {
    if data != [] {
      FieldPartsAreValues(data[..|data| - 1]);
    }
  }

  /** Building the file parts fails exactly when some path is not a string; otherwise every
      file part carries an opened file named after the basename of its path. */
  lemma {:induction false} FilePartsShape(lib: Library, files: PhpArray)
    ensures FileParts(lib, files).Success? <==> FilePathsAreStrings(files)
    ensures FileParts(lib, files).Failure? ==> FileParts(lib, files).error == TypeError
    ensures FileParts(lib, files).Success? ==> forall p :: p in FileParts(lib, files).value ==>
              p.contents.OpenedFile? && p.filename == Some(lib.basename(p.contents.path))
    decreases |files|
  {
    if files != [] {
      var init := files[..|files| - 1];
      FilePartsShape(lib, init);
      assert FilePathsAreStrings(files) <==> FilePathsAreStrings(init) && EntryPathsAreStrings(files[|files| - 1]) by {
        assert forall i :: 0 <= i < |init| ==> init[i] == files[i];
      }
    }
  }

  /** A file entry whose paths are not all strings makes the whole file list fail. */
  lemma FileFailureIsFinal(lib: Library, files: PhpArray, i: nat)
    requires i < |files| && !EntryPathsAreStrings(files[i])
    ensures FileParts(lib, files) == Failure(TypeError)
  {
    FilePartsShape(lib, files);
  }

  /** How many parts an entry gives: one per item of an array, else one. */
  function EntryCount(entry: (Key, Value)): nat {
    if entry.1.Arr? then |entry.1.entries| else 1
  }

  /** The parts a list of fields or files gives, entry by entry. */
  function PartCount(entries: PhpArray): nat {
    if entries == [] then 0 else PartCount(entries[..|entries| - 1]) + EntryCount(entries[|entries| - 1])
  }

  lemma {:induction false} FieldPartsCount(data: PhpArray)
    ensures |FieldParts(data)| == PartCount(data)
    decreases |data|
  {
    if data != [] {
      FieldPartsCount(data[..|data| - 1]);
    }
  }

  lemma {:induction false} FilePartsCount(lib: Library, files: PhpArray)
    ensures FileParts(lib, files).Success? ==> |FileParts(lib, files).value| == PartCount(files)
    decreases |files|
  {
    if files != [] {
      FilePartsCount(lib, files[..|files| - 1]);
    }
  }

  /** The layout of a multipart body: one part per scalar and per array item, form fields first
      (values, no filename), then files (opened, named after the basename of their path). */
  lemma MultipartLayout(lib: Library, data: PhpArray, files: PhpArray)
    ensures MultipartParts(lib, data, files).Success? <==> FilePathsAreStrings(files)
    ensures MultipartParts(lib, data, files).Success? ==>
              var parts := MultipartParts(lib, data, files).value;
              && |parts| == PartCount(data) + PartCount(files)
              && (forall i :: 0 <= i < PartCount(data) ==> parts[i].contents.Contents? && parts[i].filename.None?)
              && (forall i :: PartCount(data) <= i < |parts| ==>
                    parts[i].contents.OpenedFile? && parts[i].filename == Some(lib.basename(parts[i].contents.path)))
  {
    FieldPartsCount(data);
    FilePartsCount(lib, files);
    FieldPartsAreValues(data);
    FilePartsShape(lib, files);
    if MultipartParts(lib, data, files).Success? {
      ConcatLayout(lib, FieldParts(data), FileParts(lib, files).value);
    }
  }

  /** Value parts followed by file parts, by position. */
  lemma ConcatLayout(lib: Library, fields: seq<Part>, fileParts: seq<Part>)
    requires forall p :: p in fields ==> p.contents.Contents? && p.filename.None?
    requires forall p :: p in fileParts ==> p.contents.OpenedFile? && p.filename == Some(lib.basename(p.contents.path))
    ensures forall i :: 0 <= i < |fields| ==> (fields + fileParts)[i].contents.Contents? && (fields + fileParts)[i].filename.None?
    ensures forall i :: |fields| <= i < |fields + fileParts| ==>
              (fields + fileParts)[i].contents.OpenedFile? &&
              (fields + fileParts)[i].filename == Some(lib.basename((fields + fileParts)[i].contents.path))
  {
    var parts := fields + fileParts;
    assert forall i :: 0 <= i < |fields| ==> parts[i] == fields[i] && fields[i] in fields;
    assert forall i :: |fields| <= i < |parts| ==> parts[i] == fileParts[i - |fields|] && fileParts[i - |fields|] in fileParts;
  }

  /** `postMultipart`'s first loop: a part per form field, one per item for an array field. */
  method BuildFieldParts(data: PhpArray) returns (parts: seq<Part>)
    ensures parts == FieldParts(data)
  {
    parts := [];
    var i := 0;
    while i < |data|
      invariant 0 <= i <= |data|
      invariant parts == FieldParts(data[..i])
    {
      var key, value := data[i].0, data[i].1;
      if value.Arr? {
        var j := 0;
        var before := parts;
        while j < |value.entries|
          invariant 0 <= j <= |value.entries|
          invariant parts == before + ItemParts(KeyText(key), value.entries[..j])
        {
          parts := parts + [Part(KeyText(key) + "[]", Contents(value.entries[j].1), None)];
          assert value.entries[..j + 1][..j] == value.entries[..j];
          j := j + 1;
        }
        assert value.entries[..j] == value.entries;
      } else {
        parts := parts + [Part(KeyText(key), Contents(value), None)];
      }
      assert data[..i + 1][..i] == data[..i];
      i := i + 1;
    }
    assert data[..i] == data;
  }

  /** `postMultipart`'s second loop: a part per file, opened from its path; a path that is not
      a string stops the loop with a TypeError. */
  method BuildFileParts(lib: Library, files: PhpArray) returns (r: Result<seq<Part>, Raised>)
    ensures r == FileParts(lib, files)
  {
    var fileParts: seq<Part> := [];
    var i := 0;
    while i < |files|
      invariant 0 <= i <= |files|
      invariant FileParts(lib, files[..i]) == Success(fileParts)
    {
      var key, file := files[i].0, files[i].1;
      assert files[..i + 1][..i] == files[..i];
      if file.Arr? {
        var j := 0;
        var before := fileParts;
        while j < |file.entries|
          invariant 0 <= j <= |file.entries|
          invariant IndexedFileParts(lib, KeyText(key), file.entries[..j]).Success?
          invariant fileParts == before + IndexedFileParts(lib, KeyText(key), file.entries[..j]).value
        {
          var index, path := file.entries[j].0, file.entries[j].1;
          assert file.entries[..j + 1][..j] == file.entries[..j];
          if !path.Str? {
            FileFailureIsFinal(lib, files, i);
            return Failure(TypeError);
          }
          fileParts := fileParts + [Part(KeyText(key) + "[" + KeyText(index) + "]", OpenedFile(path.s), Some(lib.basename(path.s)))];
          j := j + 1;
        }
        assert file.entries[..j] == file.entries;
      } else {
        if !file.Str? {
          FileFailureIsFinal(lib, files, i);
          return Failure(TypeError);
        }
        fileParts := fileParts + [Part(KeyText(key), OpenedFile(file.s), Some(lib.basename(file.s)))];
      }
      i := i + 1;
    }
    assert files[..i] == files;
    return Success(fileParts);
  }

  /** The body of `stream`'s loop for one line: the decoded payload of a `data: ` line other
      than `[DONE]`, nothing for any other line or a payload that does not decode. */
  method DecodeLine(lib: Library, line: string) returns (found: seq<Value>)
    ensures found == LineEvents(lib, line)
  {
    found := [];
    if !Falsy(Str(line)) && line != "\n" && StartsWith(line, DataPrefix) {
      var payload := line[|DataPrefix|..];
      if payload != "[DONE]" {
        var decoded := lib.jsonDecode(payload);
        if decoded.Success? {
          found := [decoded.value];
        }
      }
    }
  }

  /** `stream`'s read loop: each line of the body in turn, keeping the decoded payload of
      every `data: ` line other than `[DONE]`; a line that does not decode is skipped. Lines are
      read as `GuzzleHttp\Psr7\Utils::readLine` reads them, the evidently intended reader: the
      body's stream class itself has no `readline()`. */
  method ReadEvents(lib: Library, body: string) returns (events: seq<Value>)
    ensures events == SseEvents(lib, body)
  {
    events := [];
    var rest := body;
    while rest != []
      invariant events + SseEvents(lib, rest) == SseEvents(lib, body)
      decreases |rest|
    {
      var n := LineLength(rest);
      var line := rest[..n];
      var found := DecodeLine(lib, line);
      assert SseEvents(lib, rest) == found + SseEvents(lib, rest[n..]);
      AppendAssociative(events, found, SseEvents(lib, rest[n..]));
      events := events + found;
      rest := rest[n..];
    }
    assert events == SseEvents(lib, body);
  }

  // ---------------------------------------------------------------------
  // The client

  class SmtpClient {
    const username: Option<string>
    const token: Option<string>
    const domainApiKey: Option<string>
    const domainApiSecret: Option<string>
    /** The PHP built-ins the client calls. */
    const lib: Library
    /** The HTTP library and the server behind it. */
    const server: Server
    var baseUrl: string
    /** Every request handed to the HTTP library so far, in order. */
    var sent: seq<HttpRequest>

    /** `new SmtpClient(...)`: credentials stored as given, the base URL without trailing slashes. */
    constructor (lib: Library, server: Server, username: Option<string> := None, token: Option<string> := None,
                 domainApiKey: Option<string> := None, domainApiSecret: Option<string> := None,
                 baseUrl: string := DefaultBaseUrl)
      ensures this.lib == lib && this.server == server
      ensures this.username == username && this.token == token
      ensures this.domainApiKey == domainApiKey && this.domainApiSecret == domainApiSecret
      ensures this.baseUrl == RTrimSlash(baseUrl) && sent == []
    {
      this.lib := lib;
      this.server := server;
      this.username := username;
      this.token := token;
      this.domainApiKey := domainApiKey;
      this.domainApiSecret := domainApiSecret;
      this.baseUrl := RTrimSlash(baseUrl);
      sent := [];
    }

    /** `setBaseUrl`: later requests go to the new URL, without its trailing slashes. */
    method SetBaseUrl(baseUrl: string)
      modifies this`baseUrl
      ensures this.baseUrl == RTrimSlash(baseUrl)
      ensures this.baseUrl == [] || this.baseUrl[|this.baseUrl| - 1] != '/'
    {
      this.baseUrl := RTrimSlash(baseUrl);
    }

    /** `/api/v4/` endpoints sign with the domain key pair, all others with user name and token;
        a credential pair that is not set (null, "" or "0" in either half) adds nothing. */
    predicate Signs(endpoint: string) {
      if StartsWith(endpoint, V4Prefix) then Truthy(domainApiKey) && Truthy(domainApiSecret)
      else Truthy(username) && Truthy(token)
    }

    /** The options with the authentication headers added for `endpoint`. */
    function AddAuthenticationHeaders(options: Options, endpoint: string): (r: Options)
      ensures r.body == options.body && r.stream == options.stream
      ensures !Signs(endpoint) ==> r == options
      ensures Signs(endpoint) && StartsWith(endpoint, V4Prefix) ==>
                Lookup(r.headers, StrKey(AuthorizationHeader)) ==
                Some(Str(BasicAuth(lib, domainApiKey.value, domainApiSecret.value)))
      ensures Signs(endpoint) && !StartsWith(endpoint, V4Prefix) ==>
                Lookup(r.headers, StrKey(AuthorizationHeader)) == Some(Str(BasicAuth(lib, username.value, token.value)))
      ensures Signs(endpoint) && StartsWith(endpoint, V4Prefix) &&
              !IsSet(options.headers, StrKey(DomainHeader)) && !options.body.Multipart? ==>
                Lookup(r.headers, StrKey(DomainHeader)) == Some(OfStr(ExtractDomain(endpoint)))
      ensures !(Signs(endpoint) && StartsWith(endpoint, V4Prefix) &&
                !IsSet(options.headers, StrKey(DomainHeader)) && !options.body.Multipart?) ==>
                Lookup(r.headers, StrKey(DomainHeader)) == Lookup(options.headers, StrKey(DomainHeader))
      ensures forall k :: k != StrKey(AuthorizationHeader) && k != StrKey(DomainHeader) ==>
                Lookup(r.headers, k) == Lookup(options.headers, k)
    {
      var headers := options.headers;
      if StartsWith(endpoint, V4Prefix) then
        if Truthy(domainApiKey) && Truthy(domainApiSecret) then
          var signed := PhpValues.Put(headers, StrKey(AuthorizationHeader), Str(BasicAuth(lib, domainApiKey.value, domainApiSecret.value)));
          var withDomain :=
            if !IsSet(signed, StrKey(DomainHeader)) && !options.body.Multipart? then
              PhpValues.Put(signed, StrKey(DomainHeader), OfStr(ExtractDomain(endpoint)))
            else signed;
          options.(headers := withDomain)
        else options.(headers := headers)
      else if Truthy(username) && Truthy(token) then
        options.(headers := PhpValues.Put(headers, StrKey(AuthorizationHeader), Str(BasicAuth(lib, username.value, token.value))))
      else options.(headers := headers)
    }

    /** The request handed to the HTTP library for `request($method, $endpoint, $options)`. */
    function Prepared(httpMethod: string, endpoint: string, options: Options): (r: HttpRequest)
      reads this
      ensures r.baseUri == baseUrl && r.httpMethod == httpMethod && r.endpoint == endpoint
      ensures r.options == AddAuthenticationHeaders(options, endpoint)
    {
      HttpRequest(baseUrl, httpMethod, endpoint, AddAuthenticationHeaders(options, endpoint))
    }

    /** What `request` returns or throws when `request` is sent after `history`. */
    function Answer(history: seq<HttpRequest>, request: HttpRequest): Result<PhpArray, Raised> {
      RequestOutcome(lib, server(history, request))
    }

    /** `request`: sign, send once, and parse the reply. */
    method Request(httpMethod: string, endpoint: string, options: Options) returns (r: Result<PhpArray, Raised>)
      modifies this`sent
      ensures sent == old(sent) + [Prepared(httpMethod, endpoint, options)]
      ensures r == Answer(old(sent), Prepared(httpMethod, endpoint, options))
    {
      var request := Prepared(httpMethod, endpoint, options);
      var reply := server(sent, request);
      sent := sent + [request];
      match reply
      case Received(response) =>
        r := ParseResponse(lib, response);
      case RequestError(message, response) =>
        if response.Some? {
          var parsed := ParseResponse(lib, response.value);
          if parsed.Failure? {
            return parsed;
          }
        }
        r := Failure(NetworkError(message));
      case TransferError(message) =>
        r := Failure(Transport(message));
    }

    /** `get`: the parameters go in the query string. */
    method Get(endpoint: string, params: PhpArray := [], headers: PhpArray := []) returns (r: Result<PhpArray, Raised>)
      modifies this`sent
      ensures sent == old(sent) + [Prepared("GET", endpoint, Options(Query(params), headers, false))]
      ensures r == Answer(old(sent), sent[|sent| - 1])
    {
      r := Request("GET", endpoint, Options(Query(params), headers, false));
    }

    /** `post`: the data goes as a JSON body. */
    method Post(endpoint: string, data: PhpArray := [], headers: PhpArray := []) returns (r: Result<PhpArray, Raised>)
      modifies this`sent
      ensures sent == old(sent) + [Prepared("POST", endpoint, Options(Json(data), headers, false))]
      ensures r == Answer(old(sent), sent[|sent| - 1])
    {
      r := Request("POST", endpoint, Options(Json(data), headers, false));
    }

    /** `put`: the data goes as a JSON body. */
    method Put(endpoint: string, data: PhpArray := [], headers: PhpArray := []) returns (r: Result<PhpArray, Raised>)
      modifies this`sent
      ensures sent == old(sent) + [Prepared("PUT", endpoint, Options(Json(data), headers, false))]
      ensures r == Answer(old(sent), sent[|sent| - 1])
    {
      r := Request("PUT", endpoint, Options(Json(data), headers, false));
    }

    /** `delete`: the parameters go in the query string. */
    method Delete(endpoint: string, params: PhpArray := [], headers: PhpArray := []) returns (r: Result<PhpArray, Raised>)
      modifies this`sent
      ensures sent == old(sent) + [Prepared("DELETE", endpoint, Options(Query(params), headers, false))]
      ensures r == Answer(old(sent), sent[|sent| - 1])
    {
      r := Request("DELETE", endpoint, Options(Query(params), headers, false));
    }

    /** `postMultipart`: form fields then files as a multipart body; a file path that is not a
        string raises a TypeError before anything is sent. */
    method PostMultipart(endpoint: string, data: PhpArray := [], files: PhpArray := [], headers: PhpArray := [])
      returns (r: Result<PhpArray, Raised>)
      modifies this`sent
      ensures MultipartParts(lib, data, files).Failure? ==>
                sent == old(sent) && r == Failure(MultipartParts(lib, data, files).error)
      ensures MultipartParts(lib, data, files).Success? ==>
                sent == old(sent) + [Prepared("POST", endpoint, Options(Multipart(MultipartParts(lib, data, files).value), headers, false))] &&
                r == Answer(old(sent), sent[|sent| - 1])
    {
      var fields := BuildFieldParts(data);
      var fileParts := BuildFileParts(lib, files);
      if fileParts.Failure? {
        return Failure(fileParts.error);
      }
      r := Request("POST", endpoint, Options(Multipart(fields + fileParts.value), headers, false));
    }

    /** What `stream` yields when its request is sent after `history`: the events of the body
        whatever the status; an exception of the HTTP library is not caught. */
    function StreamAnswer(history: seq<HttpRequest>, request: HttpRequest): Result<seq<Value>, Raised> {
      match server(history, request)
      case Received(response) => Success(SseEvents(lib, response.body))
      case RequestError(message, _) => Failure(Transport(message))
      case TransferError(message) => Failure(Transport(message))
    }

    /** `stream`: one signed streaming GET, then the body read line by line. */
    method Stream(endpoint: string, params: PhpArray := [], headers: PhpArray := []) returns (r: Result<seq<Value>, Raised>)
      modifies this`sent
      ensures sent == old(sent) + [Prepared("GET", endpoint, Options(Query(params), headers, true))]
      ensures r == StreamAnswer(old(sent), sent[|sent| - 1])
    {
      var request := Prepared("GET", endpoint, Options(Query(params), headers, true));
      var reply := server(sent, request);
      sent := sent + [request];
      if !reply.Received? {
        return Failure(Transport(reply.message));
      }
      var events := ReadEvents(lib, reply.response.body);
      return Success(events);
    }
  }
}
