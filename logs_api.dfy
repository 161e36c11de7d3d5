/** The logs façade: pre-flight checks of the log query, the paged log of a domain, the log
    of one message, the live event stream, and three query shortcuts. */
module Logs {
  import opened PhpValues
  import opened PhpRuntime
  import opened Exceptions
  import opened Client
  import LogEntryModel
  import PaginationModel

  const StartKey := "start"
  const EndKey := "end"
  const SenderKey := "sender"
  const RecipientKey := "recipient"
  const LimitKey := "limit"
  const OffsetKey := "offset"
  const DataKey := "data"
  const CountKey := "count"
  const PaginationKey := "pagination"

  const StartMessage := "Invalid start date format. Use ISO8601 format."
  const EndMessage := "Invalid end date format. Use ISO8601 format."
  const SenderMessage := "Invalid sender email address."
  const RecipientMessage := "Invalid recipient email address."
  const LimitMessage := "Limit must be between 1 and 10000."
  const OffsetMessage := "Offset must be greater than or equal to 0."

  /** The page size the list endpoint reports when the response has none. */
  const DefaultLimit := 1000
  /** The limit the stream asks for when the caller sets none. */
  const StreamDefaultLimit := 50000

  /** `isValidDateTime`: the text parses as `Y-m-d\TH:i:sP` and prints back as itself. */
  predicate IsValidDateTime(lib: Library, s: string) {
    var d := lib.parseIso8601(s);
    d.Some? && lib.formatIso8601(d.value) == s
  }

  /** The date parameter under `key` reaches `isValidDateTime(string)` with a value that is
      not a string: a TypeError under strict types. */
  predicate DateCrashes(params: PhpArray, key: string) {
    IsSet(params, StrKey(key)) && !Get(params, StrKey(key)).Str?
  }

  /** The date parameter under `key` is absent or a valid ISO 8601 text. */
  predicate DateOk(lib: Library, params: PhpArray, key: string) {
    var v := Get(params, StrKey(key));
    v == Null || (v.Str? && IsValidDateTime(lib, v.s))
  }

  /** The text `filter_var` validates: scalars are converted to strings, arrays are refused. */
  function EmailText(v: Value): Option<string> {
    match v
    case Null => Some("")
    case Bool(b) => Some(if b then "1" else "")
    case Int(i) => Some(IntToString(i))
    case Str(s) => Some(s)
    case Arr(_) => None
  }

  /** The e-mail parameter under `key` is absent or `filter_var(..., FILTER_VALIDATE_EMAIL)` accepts it. */
  predicate EmailOk(lib: Library, params: PhpArray, key: string) {
    var t := EmailText(Get(params, StrKey(key)));
    !IsSet(params, StrKey(key)) || (t.Some? && lib.isEmail(t.value))
  }

  predicate LimitOk(lib: Library, params: PhpArray) {
    !IsSet(params, StrKey(LimitKey)) || 1 <= IntCast(lib, Get(params, StrKey(LimitKey))) <= 10000
  }

  predicate OffsetOk(lib: Library, params: PhpArray) {
    !IsSet(params, StrKey(OffsetKey)) || IntCast(lib, Get(params, StrKey(OffsetKey))) >= 0
  }

  /** One date check: absent passes, a string is parsed, anything else is a TypeError. */
  function DateCheck(lib: Library, params: PhpArray, key: string, message: string): (c: Check)
    ensures c.Pass? <==> DateOk(lib, params, key)
    ensures c == Crash <==> DateCrashes(params, key)
    ensures c.Fail? ==> c.message == message
  {
    match Get(params, StrKey(key))
    case Null => Pass
    case Str(s) => Require(IsValidDateTime(lib, s), message)
    case _ => Crash
  }

  /** The failure a date check reports. */
  function DateFailure(params: PhpArray, key: string, message: string): Raised {
    if DateCrashes(params, key) then TypeError else Reject(message)
  }

  /** `validateLogParams`: start, end, sender, recipient, limit and offset, in that order; the
      first one out of range throws its message, and a date that is not a string is a TypeError. */
  function LogParamsError(lib: Library, params: PhpArray): (r: Option<Raised>)
    ensures r.None? <==>
              && DateOk(lib, params, StartKey) && DateOk(lib, params, EndKey)
              && EmailOk(lib, params, SenderKey) && EmailOk(lib, params, RecipientKey)
              && LimitOk(lib, params) && OffsetOk(lib, params)
    ensures !DateOk(lib, params, StartKey) ==> r == Some(DateFailure(params, StartKey, StartMessage))
    ensures DateOk(lib, params, StartKey) && !DateOk(lib, params, EndKey) ==>
              r == Some(DateFailure(params, EndKey, EndMessage))
    ensures DateOk(lib, params, StartKey) && DateOk(lib, params, EndKey) && !EmailOk(lib, params, SenderKey) ==>
              r == Some(Reject(SenderMessage))
    ensures DateOk(lib, params, StartKey) && DateOk(lib, params, EndKey) && EmailOk(lib, params, SenderKey) &&
            !EmailOk(lib, params, RecipientKey) ==>
              r == Some(Reject(RecipientMessage))
    ensures DateOk(lib, params, StartKey) && DateOk(lib, params, EndKey) && EmailOk(lib, params, SenderKey) &&
            EmailOk(lib, params, RecipientKey) && !LimitOk(lib, params) ==>
              r == Some(Reject(LimitMessage))
    ensures DateOk(lib, params, StartKey) && DateOk(lib, params, EndKey) && EmailOk(lib, params, SenderKey) &&
            EmailOk(lib, params, RecipientKey) && LimitOk(lib, params) && !OffsetOk(lib, params) ==>
              r == Some(Reject(OffsetMessage))
  {
    var checks := [DateCheck(lib, params, StartKey, StartMessage),
                   DateCheck(lib, params, EndKey, EndMessage),
                   Require(EmailOk(lib, params, SenderKey), SenderMessage),
                   Require(EmailOk(lib, params, RecipientKey), RecipientMessage),
                   Require(LimitOk(lib, params), LimitMessage),
                   Require(OffsetOk(lib, params), OffsetMessage)];
    assert checks[..0] == [] && checks[..1] == [checks[0]] && checks[..2] == [checks[0], checks[1]];
    assert checks[..3] == checks[..2] + [checks[2]] && checks[..4] == checks[..3] + [checks[3]];
    assert checks[..5] == checks[..4] + [checks[4]];
    FirstFailure(checks)
  }

  function LogsEndpoint(domain: string): string {
    DomainsPath + domain + "/log"
  }

  function MessageLogsEndpoint(domain: string, messageGuid: string): string {
    DomainsPath + domain + "/log/" + messageGuid
  }

  function StreamEndpoint(domain: string): string {
    DomainsPath + domain + "/log/stream"
  }

  /** `getLogsByDateRange`'s query: the caller's parameters with both dates set, printed with `format('c')`. */
  function DateRangeParams(lib: Library, additional: PhpArray, start: DateTime, end: DateTime): PhpArray {
    Merge(additional, [(StrKey(StartKey), Str(lib.formatIso8601(start))), (StrKey(EndKey), Str(lib.formatIso8601(end)))])
  }

  /** `getLogsBySender`'s query. */
  function SenderParams(additional: PhpArray, sender: string): PhpArray {
    Merge(additional, [(StrKey(SenderKey), Str(sender))])
  }

  /** `getLogsByRecipient`'s query. */
  function RecipientParams(additional: PhpArray, recipient: string): PhpArray {
    Merge(additional, [(StrKey(RecipientKey), Str(recipient))])
  }

  /** `streamLogs`' query: a limit of 50000 unless the caller set one. */
  function StreamParams(params: PhpArray): PhpArray {
    if IsSet(params, StrKey(LimitKey)) then params else PhpValues.Put(params, StrKey(LimitKey), Int(StreamDefaultLimit))
  }

  /** What `getLogs` returns: the typed entries, the count, offset and limit (the response's,
      or their defaults), and the pagination block or null. */
  datatype LogPage = LogPage(data: seq<LogEntryModel.LogEntry>, count: Value, offset: Value, limit: Value,
                             pagination: Option<PaginationModel.Pagination>)

  /** A response whose entries and pagination block the shaping can type. */
  predicate Shapeable(response: PhpArray) {
    && (forall v :: v in Items(Get(response, StrKey(DataKey))) ==> LogEntryModel.Accepts(v))
    && (IsSet(response, StrKey(PaginationKey)) ==> PaginationModel.Accepts(Get(response, StrKey(PaginationKey))))
  }

  /** One entry per element of `data`, in order, with the element's values. */
  predicate EntriesOf(response: PhpArray, data: seq<LogEntryModel.LogEntry>)
    reads data
  {
    var items := Items(Get(response, StrKey(DataKey)));
    && |data| == |items|
    && forall i :: 0 <= i < |items| ==>
         items[i].Arr? && data[i].ToArray() == Project(items[i].entries, LogEntryModel.Keys)
  }

  /** The page built from `response`: its entries; `count` defaults to the number of entries,
      `offset` to 0 and `limit` to 1000; the pagination block exactly when the response has one. */
  predicate Shaped(response: PhpArray, page: LogPage)
    reads page.data, if page.pagination.Some? then {page.pagination.value} else {}
  {
    && EntriesOf(response, page.data)
    && page.count == Coalesce(Get(response, StrKey(CountKey)), Int(|page.data|))
    && page.offset == Coalesce(Get(response, StrKey(OffsetKey)), Int(0))
    && page.limit == Coalesce(Get(response, StrKey(LimitKey)), Int(DefaultLimit))
    && (page.pagination.Some? <==> IsSet(response, StrKey(PaginationKey)))
    && (page.pagination.Some? ==>
          Get(response, StrKey(PaginationKey)).Arr? &&
          page.pagination.value.ToArray() == Project(Get(response, StrKey(PaginationKey)).entries, PaginationModel.Keys))
  }

  /** The outcome of `getLogs` once the client has answered. */
  predicate PagedFrom(answer: Result<PhpArray, Raised>, r: Result<LogPage, Raised>)
    reads if r.Success? then r.value.data else []
    reads if r.Success? && r.value.pagination.Some? then {r.value.pagination.value} else {}
  {
    match answer
    case Failure(e) => r == Failure(e)
    case Success(response) =>
      if Shapeable(response) then r.Success? && Shaped(response, r.value) else r == Failure(TypeError)
  }

  /** The outcome of `getMessageLogs` once the client has answered. */
  predicate EntriesFrom(answer: Result<PhpArray, Raised>, r: Result<seq<LogEntryModel.LogEntry>, Raised>)
    reads if r.Success? then r.value else []
  {
    match answer
    case Failure(e) => r == Failure(e)
    case Success(response) =>
      if forall v :: v in Items(Get(response, StrKey(DataKey))) ==> LogEntryModel.Accepts(v)
      then r.Success? && EntriesOf(response, r.value)
      else r == Failure(TypeError)
  }

  /** `$event['data']` of each streamed event where it is set, in order. */
  function Payloads(events: seq<Value>): (r: seq<Value>)
    ensures |r| <= |events|
  {
    if events == [] then []
    else
      var last := Field(events[|events| - 1], DataKey);
      Payloads(events[..|events| - 1]) + (if last != Null then [last] else [])
  }

  /** What `streamLogs` produced: the entries yielded, and what stopped it early, if anything. */
  datatype Streamed = Streamed(entries: seq<LogEntryModel.LogEntry>, stop: Option<Raised>)

  /** The yielded entries are built from the first payloads, one each, in order; the stream
      stops early exactly at the first payload the constructor refuses, with a TypeError. */
  predicate YieldedFrom(payloads: seq<Value>, s: Streamed)
    reads s.entries
  {
    && |s.entries| <= |payloads|
    && (forall i :: 0 <= i < |s.entries| ==> LogEntryModel.BuiltFrom(s.entries[i], payloads[i]))
    && (s.stop.None? <==> |s.entries| == |payloads|)
    && (s.stop.Some? ==> s.stop.value == TypeError && !LogEntryModel.Accepts(payloads[|s.entries|]))
  }

  class LogsApi {
    const client: SmtpClient

    constructor (client: SmtpClient)
      ensures this.client == client
    {
      this.client := client;
    }

    /** `getLogs`: check the query, send it, and type the entries of the answer. */
    method GetLogs(domain: string, params: PhpArray := []) returns (r: Result<LogPage, Raised>)
      modifies client`sent
      ensures LogParamsError(client.lib, params).Some? ==>
                r == Failure(LogParamsError(client.lib, params).value) && client.sent == old(client.sent)
      ensures LogParamsError(client.lib, params).None? ==>
                client.sent == old(client.sent) + [client.Prepared("GET", LogsEndpoint(domain), Options(Query(params), [], false))] &&
                PagedFrom(client.Answer(old(client.sent), client.sent[|client.sent| - 1]), r)
    {
      var error := LogParamsError(client.lib, params);
      if error.Some? {
        return Failure(error.value);
      }
      var response := client.Get(LogsEndpoint(domain), params);
      if response.Failure? {
        return Failure(response.error);
      }
      r := ShapePage(response.value);
    }

    /** `getMessageLogs`: the entries of one message, unchecked and unpaged; the source wraps
        them as `['data' => $logs]`. */
    method GetMessageLogs(domain: string, messageGuid: string) returns (r: Result<seq<LogEntryModel.LogEntry>, Raised>)
      modifies client`sent
      ensures client.sent == old(client.sent) + [client.Prepared("GET", MessageLogsEndpoint(domain, messageGuid), Options(Query([]), [], false))]
      ensures EntriesFrom(client.Answer(old(client.sent), client.sent[|client.sent| - 1]), r)
    {
      var response := client.Get(MessageLogsEndpoint(domain, messageGuid));
      if response.Failure? {
        return Failure(response.error);
      }
      var items := Items(Get(response.value, StrKey(DataKey)));
      r := LogEntryModel.BuildAll(items);
      if r.Failure? {
        assert !(forall v :: v in items ==> LogEntryModel.Accepts(v)) by {
          var i :| 0 <= i < |items| && !LogEntryModel.Accepts(items[i]);
          assert items[i] in items;
        }
      }
    }

    /** `streamLogs`: check the query, default the limit, open the stream, and build an entry
        from each event that carries `data`, stopping at the first one the constructor refuses. */
    method StreamLogs(domain: string, params: PhpArray := []) returns (r: Streamed)
      modifies client`sent
      ensures LogParamsError(client.lib, params).Some? ==>
                r == Streamed([], Some(LogParamsError(client.lib, params).value)) && client.sent == old(client.sent)
      ensures LogParamsError(client.lib, params).None? ==>
                client.sent == old(client.sent) + [client.Prepared("GET", StreamEndpoint(domain), Options(Query(StreamParams(params)), [], true))]
      ensures LogParamsError(client.lib, params).None? ==>
                match client.StreamAnswer(old(client.sent), client.sent[|client.sent| - 1])
                case Failure(e) => r == Streamed([], Some(e))
                case Success(events) => YieldedFrom(Payloads(events), r)
    {
      var error := LogParamsError(client.lib, params);
      if error.Some? {
        return Streamed([], Some(error.value));
      }
      var query := StreamParams(params);
      var events := client.Stream(StreamEndpoint(domain), query);
      if events.Failure? {
        return Streamed([], Some(events.error));
      }
      r := YieldEntries(events.value);
    }

    /** `getLogsByDateRange`: the log query with both dates set. */
    method GetLogsByDateRange(domain: string, start: DateTime, end: DateTime, additional: PhpArray := [])
      returns (r: Result<LogPage, Raised>)
      modifies client`sent
      ensures var query := DateRangeParams(client.lib, additional, start, end);
              && (LogParamsError(client.lib, query).Some? ==>
                    r == Failure(LogParamsError(client.lib, query).value) && client.sent == old(client.sent))
              && (LogParamsError(client.lib, query).None? ==>
                    client.sent == old(client.sent) + [client.Prepared("GET", LogsEndpoint(domain), Options(Query(query), [], false))] &&
                    PagedFrom(client.Answer(old(client.sent), client.sent[|client.sent| - 1]), r))
    {
      r := GetLogs(domain, DateRangeParams(client.lib, additional, start, end));
    }

    /** `getLogsBySender`: the log query with `sender` set. */
    method GetLogsBySender(domain: string, sender: string, additional: PhpArray := [])
      returns (r: Result<LogPage, Raised>)
      modifies client`sent
      ensures var query := SenderParams(additional, sender);
              && (LogParamsError(client.lib, query).Some? ==>
                    r == Failure(LogParamsError(client.lib, query).value) && client.sent == old(client.sent))
              && (LogParamsError(client.lib, query).None? ==>
                    client.sent == old(client.sent) + [client.Prepared("GET", LogsEndpoint(domain), Options(Query(query), [], false))] &&
                    PagedFrom(client.Answer(old(client.sent), client.sent[|client.sent| - 1]), r))
    {
      r := GetLogs(domain, SenderParams(additional, sender));
    }

    /** `getLogsByRecipient`: the log query with `recipient` set. */
    method GetLogsByRecipient(domain: string, recipient: string, additional: PhpArray := [])
      returns (r: Result<LogPage, Raised>)
      modifies client`sent
      ensures var query := RecipientParams(additional, recipient);
              && (LogParamsError(client.lib, query).Some? ==>
                    r == Failure(LogParamsError(client.lib, query).value) && client.sent == old(client.sent))
              && (LogParamsError(client.lib, query).None? ==>
                    client.sent == old(client.sent) + [client.Prepared("GET", LogsEndpoint(domain), Options(Query(query), [], false))] &&
                    PagedFrom(client.Answer(old(client.sent), client.sent[|client.sent| - 1]), r))
    {
      r := GetLogs(domain, RecipientParams(additional, recipient));
    }
  }

  /** The shaping half of `getLogs`: type the entries, then the pagination block, then fill in
      the defaults. */
  method ShapePage(response: PhpArray) returns (r: Result<LogPage, Raised>)
    ensures Shapeable(response) ==> r.Success? && Shaped(response, r.value)
    ensures !Shapeable(response) ==> r == Failure(TypeError)
  {
    var items := Items(Get(response, StrKey(DataKey)));
    var logs := LogEntryModel.BuildAll(items);
    if logs.Failure? {
      assert !Shapeable(response) by {
        var i :| 0 <= i < |items| && !LogEntryModel.Accepts(items[i]);
        assert items[i] in items;
      }
      return Failure(logs.error);
    }
    var pagination := PaginationModel.BuildIfSet(Get(response, StrKey(PaginationKey)));
    if pagination.Failure? {
      return Failure(pagination.error);
    }
    r := Success(LogPage(logs.value,
                         Coalesce(Get(response, StrKey(CountKey)), Int(|logs.value|)),
                         Coalesce(Get(response, StrKey(OffsetKey)), Int(0)),
                         Coalesce(Get(response, StrKey(LimitKey)), Int(DefaultLimit)),
                         pagination.value));
  }

  /** The generator loop of `streamLogs` over the decoded events. */
  method YieldEntries(events: seq<Value>) returns (r: Streamed)
    ensures YieldedFrom(Payloads(events), r)
    ensures forall i :: 0 <= i < |r.entries| ==> fresh(r.entries[i])
  {
    var entries: seq<LogEntryModel.LogEntry> := [];
    ghost var payloads: seq<Value> := [];
    var i := 0;
    while i < |events|
      invariant 0 <= i <= |events| && payloads == Payloads(events[..i])
      invariant |entries| == |payloads|
      invariant forall j :: 0 <= j < |entries| ==> fresh(entries[j]) && LogEntryModel.BuiltFrom(entries[j], payloads[j])
    {
      PayloadsStep(events, i);
      var payload := Field(events[i], DataKey);
      if payload != Null {
        var entry := LogEntryModel.Build(payload);
        if entry.Failure? {
          StoppedAt(events, i, entries);
          return Streamed(entries, Some(entry.error));
        }
        entries := entries + [entry.value];
        payloads := payloads + [payload];
      }
      i := i + 1;
    }
    assert events[..i] == events;
    r := Streamed(entries, None);
  }

  // ---------------------------------------------------------------------
  // Lemmas

  /** The payloads of the events after a prefix follow the payloads of the prefix. */
  lemma PayloadsSplit(events: seq<Value>, n: nat)
    requires n <= |events|
    ensures Payloads(events) == Payloads(events[..n]) + Payloads(events[n..])
  {
    var a, b := events[..n], events[n..];
    assert a + b == events;
    PayloadsAppend(a, b);
  }

  /** Stopping at an event whose payload the constructor refuses yields what was built so far. */
  lemma StoppedAt(events: seq<Value>, i: nat, entries: seq<LogEntryModel.LogEntry>)
    requires i < |events| && Field(events[i], DataKey) != Null && !LogEntryModel.Accepts(Field(events[i], DataKey))
    requires |entries| == |Payloads(events[..i])|
    requires forall j :: 0 <= j < |entries| ==> LogEntryModel.BuiltFrom(entries[j], Payloads(events[..i])[j])
    ensures YieldedFrom(Payloads(events), Streamed(entries, Some(TypeError)))
  {
    PayloadsStep(events, i);
    PayloadsSplit(events, i + 1);
    var before := Payloads(events[..i]);
    var through := before + [Field(events[i], DataKey)];
    assert Payloads(events) == through + Payloads(events[i + 1..]);
  }

  /** One more event adds its payload, if it has one, at the end. */
  lemma PayloadsStep(events: seq<Value>, i: nat)
    requires i < |events|
    ensures Payloads(events[..i + 1]) ==
            Payloads(events[..i]) + if Field(events[i], DataKey) != Null then [Field(events[i], DataKey)] else []
  {
    assert events[..i + 1][..i] == events[..i];
  }

  /** The payloads of a concatenation of event runs are the payloads of each run, in order, so
      a stream read in pieces yields what it yields read whole. */
  lemma {:induction false} PayloadsAppend(a: seq<Value>, b: seq<Value>)
    ensures Payloads(a + b) == Payloads(a) + Payloads(b)
    decreases |b|
  {
    if b == [] {
      assert a + b == a;
    } else {
      var c := b[..|b| - 1];
      assert (a + b)[..|a + b| - 1] == a + c;
      assert (a + b)[|a + b| - 1] == b[|b| - 1];
      PayloadsAppend(a, c);
    }
  }

  /** Without a limit of their own, the stream asks for 50000 entries, more than the log query
      check allows (10000); a limit the caller set is sent as it is. */
  lemma StreamLimit(lib: Library, params: PhpArray)
    ensures IsSet(params, StrKey(LimitKey)) ==> StreamParams(params) == params
    ensures !IsSet(params, StrKey(LimitKey)) ==>
              Lookup(StreamParams(params), StrKey(LimitKey)) == Some(Int(StreamDefaultLimit)) &&
              !LimitOk(lib, StreamParams(params))
    ensures forall k :: k != StrKey(LimitKey) ==> Lookup(StreamParams(params), k) == Lookup(params, k)
  {
  }

  /** array_merge with one string-keyed entry: that entry wins, every other string key is kept. */
  lemma SingleOverride(additional: PhpArray, key: string, v: Value)
    requires UniqueKeys(additional)
    ensures Lookup(Merge(additional, [(StrKey(key), v)]), StrKey(key)) == Some(v)
    ensures forall s :: s != key ==> Lookup(Merge(additional, [(StrKey(key), v)]), StrKey(s)) == Lookup(additional, StrKey(s))
  {
    forall s ensures Lookup(Merge(additional, [(StrKey(key), v)]), StrKey(s)) ==
                     if s == key then Some(v) else Lookup(additional, StrKey(s)) {
      MergeLookup(additional, [(StrKey(key), v)], s);
    }
  }

  /** The date-range shortcut sends both dates as strings, so its date checks never raise a
      TypeError: each passes exactly when the printed date reads back as itself; the other
      parameters are the caller's. */
  lemma DateRangeDates(lib: Library, additional: PhpArray, start: DateTime, end: DateTime)
    requires UniqueKeys(additional)
    ensures var q := DateRangeParams(lib, additional, start, end);
            && Lookup(q, StrKey(StartKey)) == Some(Str(lib.formatIso8601(start)))
            && Lookup(q, StrKey(EndKey)) == Some(Str(lib.formatIso8601(end)))
            && !DateCrashes(q, StartKey) && !DateCrashes(q, EndKey)
            && (DateOk(lib, q, StartKey) <==> IsValidDateTime(lib, lib.formatIso8601(start)))
            && (DateOk(lib, q, EndKey) <==> IsValidDateTime(lib, lib.formatIso8601(end)))
            && (forall s :: s != StartKey && s != EndKey ==> Lookup(q, StrKey(s)) == Lookup(additional, StrKey(s)))
  {
    var b := [(StrKey(StartKey), Str(lib.formatIso8601(start))), (StrKey(EndKey), Str(lib.formatIso8601(end)))];
    assert UniqueKeys(b);
    forall s ensures Lookup(Merge(additional, b), StrKey(s)) ==
                     if s == StartKey then Some(b[0].1)
                     else if s == EndKey then Some(b[1].1)
                     else Lookup(additional, StrKey(s)) {
      MergeLookup(additional, b, s);
    }
  }

  /** The sender shortcut's sender check is decided by the argument alone. */
  lemma SenderDecides(lib: Library, additional: PhpArray, sender: string)
    requires UniqueKeys(additional)
    ensures Lookup(SenderParams(additional, sender), StrKey(SenderKey)) == Some(Str(sender))
    ensures EmailOk(lib, SenderParams(additional, sender), SenderKey) <==> lib.isEmail(sender)
    ensures forall s :: s != SenderKey ==> Lookup(SenderParams(additional, sender), StrKey(s)) == Lookup(additional, StrKey(s))
  {
    SingleOverride(additional, SenderKey, Str(sender));
  }

  /** The recipient shortcut's recipient check is decided by the argument alone. */
  lemma RecipientDecides(lib: Library, additional: PhpArray, recipient: string)
    requires UniqueKeys(additional)
    ensures Lookup(RecipientParams(additional, recipient), StrKey(RecipientKey)) == Some(Str(recipient))
    ensures EmailOk(lib, RecipientParams(additional, recipient), RecipientKey) <==> lib.isEmail(recipient)
    ensures forall s :: s != RecipientKey ==>
              Lookup(RecipientParams(additional, recipient), StrKey(s)) == Lookup(additional, StrKey(s))
  {
    SingleOverride(additional, RecipientKey, Str(recipient));
  }
}
