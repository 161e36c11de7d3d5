/** One entry of the SMTP event log of a domain: which message, which event
    (queued, delivered, bounced, ...) and when. */
module LogEntryModel {
  import opened PhpValues
  import opened PhpRuntime
  import opened Exceptions

  const IdKey := "id"
  const UserGuidKey := "user_guid"
  const UserDomainGuidKey := "user_domain_guid"
  const EventTypeKey := "event_type"
  const MessageGuidKey := "message_guid"
  const TimestampKey := "timestamp"

  // The event types of the SMTP log.
  const SmtpEventQueued := "queued"
  const SmtpEventSend := "send"
  const SmtpEventDelivered := "delivered"
  const SmtpEventBounced := "bounced"
  const SmtpEventFailed := "failed"
  const SmtpEventPermanentFail := "permanent_fail"
  const SmtpEventOpened := "opened"
  const SmtpEventClicked := "clicked"
  const SmtpEventUnsubscribed := "unsubscribed"
  const SmtpEventTempFailure := "temp_fail"
  const SmtpEventDeferred := "deferred"

  /** Every event type, in the order the constants are declared. */
  const EventTypes: seq<string> := [SmtpEventQueued, SmtpEventSend, SmtpEventDelivered, SmtpEventBounced, SmtpEventFailed, SmtpEventPermanentFail, SmtpEventOpened, SmtpEventClicked, SmtpEventUnsubscribed, SmtpEventTempFailure, SmtpEventDeferred]

  /** The keys of `toArray()`, in order; the constructor reads the same keys. */
  const Keys: seq<string> := [IdKey, UserGuidKey, UserDomainGuidKey, EventTypeKey, MessageGuidKey, TimestampKey]

  /** Can `new LogEntry($d)` store every value in its typed property? */
  predicate WellTyped(d: PhpArray) {
    && IsIntOrNull(Get(d, StrKey(IdKey)))
    && IsStrOrNull(Get(d, StrKey(UserGuidKey)))
    && IsStrOrNull(Get(d, StrKey(UserDomainGuidKey)))
    && IsStrOrNull(Get(d, StrKey(EventTypeKey)))
    && IsStrOrNull(Get(d, StrKey(MessageGuidKey)))
    && IsIntOrNull(Get(d, StrKey(TimestampKey)))
  }

  /** `new LogEntry($v)` succeeds: `$v` is an array of well-typed values. */
  predicate Accepts(v: Value) {
    v.Arr? && WellTyped(v.entries)
  }

  class LogEntry {
    var id: Option<int>
    var userGuid: Option<string>
    var userDomainGuid: Option<string>
    var eventType: Option<string>
    var messageGuid: Option<string>
    var timestamp: Option<int>

    /** `new LogEntry($data)`: each property from its key, null when the key is absent. */
    constructor (data: PhpArray)
      requires WellTyped(data)
      ensures id == AsInt(Get(data, StrKey(IdKey)))
      ensures userGuid == AsStr(Get(data, StrKey(UserGuidKey)))
      ensures userDomainGuid == AsStr(Get(data, StrKey(UserDomainGuidKey)))
      ensures eventType == AsStr(Get(data, StrKey(EventTypeKey)))
      ensures messageGuid == AsStr(Get(data, StrKey(MessageGuidKey)))
      ensures timestamp == AsInt(Get(data, StrKey(TimestampKey)))
      ensures ToArray() == Project(data, Keys)
    {
      id := AsInt(Get(data, StrKey(IdKey)));
      userGuid := AsStr(Get(data, StrKey(UserGuidKey)));
      userDomainGuid := AsStr(Get(data, StrKey(UserDomainGuidKey)));
      eventType := AsStr(Get(data, StrKey(EventTypeKey)));
      messageGuid := AsStr(Get(data, StrKey(MessageGuidKey)));
      timestamp := AsInt(Get(data, StrKey(TimestampKey)));
      ProjectOnKeys(data);
      StoredValue(Get(data, StrKey(IdKey)));
      StoredValue(Get(data, StrKey(UserGuidKey)));
      StoredValue(Get(data, StrKey(UserDomainGuidKey)));
      StoredValue(Get(data, StrKey(EventTypeKey)));
      StoredValue(Get(data, StrKey(MessageGuidKey)));
      StoredValue(Get(data, StrKey(TimestampKey)));
    }

    method SetId(id: Option<int>) returns (self: LogEntry)
      modifies this`id
      ensures self == this && this.id == id
    {
      this.id := id;
      self := this;
    }

    method SetUserGuid(userGuid: Option<string>) returns (self: LogEntry)
      modifies this`userGuid
      ensures self == this && this.userGuid == userGuid
    {
      this.userGuid := userGuid;
      self := this;
    }

    method SetUserDomainGuid(userDomainGuid: Option<string>) returns (self: LogEntry)
      modifies this`userDomainGuid
      ensures self == this && this.userDomainGuid == userDomainGuid
    {
      this.userDomainGuid := userDomainGuid;
      self := this;
    }

    method SetEventType(eventType: Option<string>) returns (self: LogEntry)
      modifies this`eventType
      ensures self == this && this.eventType == eventType
    {
      this.eventType := eventType;
      self := this;
    }

    method SetMessageGuid(messageGuid: Option<string>) returns (self: LogEntry)
      modifies this`messageGuid
      ensures self == this && this.messageGuid == messageGuid
    {
      this.messageGuid := messageGuid;
      self := this;
    }

    method SetTimestamp(timestamp: Option<int>) returns (self: LogEntry)
      modifies this`timestamp
      ensures self == this && this.timestamp == timestamp
    {
      this.timestamp := timestamp;
      self := this;
    }

    /** The event time as a DateTime in UTC; null when the timestamp is null or 0. */
    function EventDateTime(): (r: Option<DateTime>)
      reads this
      ensures r.Some? <==> timestamp.Some? && timestamp.value != 0
      ensures r.Some? ==> r.value.timestamp == timestamp.value && r.value.offset == 0
    {
      PhpRuntime.TimestampDateTime(timestamp)
    }

    predicate IsQueued()
      reads this
    {
      eventType == Some(SmtpEventQueued)
    }

    predicate IsSend()
      reads this
    {
      eventType == Some(SmtpEventSend)
    }

    predicate IsDelivered()
      reads this
    {
      eventType == Some(SmtpEventDelivered)
    }

    predicate IsBounced()
      reads this
    {
      eventType == Some(SmtpEventBounced)
    }

    predicate IsFailed()
      reads this
    {
      eventType == Some(SmtpEventFailed)
    }

    predicate IsPermanentFail()
      reads this
    {
      eventType == Some(SmtpEventPermanentFail)
    }

    predicate IsOpened()
      reads this
    {
      eventType == Some(SmtpEventOpened)
    }

    predicate IsClicked()
      reads this
    {
      eventType == Some(SmtpEventClicked)
    }

    predicate IsUnsubscribed()
      reads this
    {
      eventType == Some(SmtpEventUnsubscribed)
    }

    predicate IsTempFailure()
      reads this
    {
      eventType == Some(SmtpEventTempFailure)
    }

    predicate IsDeferred()
      reads this
    {
      eventType == Some(SmtpEventDeferred)
    }

    /** The answers of the eleven event predicates, in the order of `EventTypes`. */
    function EventFlags(): (r: seq<bool>)
      reads this
      ensures |r| == |EventTypes|
    {
      [IsQueued(), IsSend(), IsDelivered(), IsBounced(), IsFailed(), IsPermanentFail(), IsOpened(), IsClicked(), IsUnsubscribed(), IsTempFailure(), IsDeferred()]
    }

    /** `toArray()`: every property under its key, in the order of `Keys`. */
    function ToArray(): (r: PhpArray)
      reads this
      ensures KeysOf(r) == StrKeys(Keys)
    {
      Record(Keys, [OfInt(id), OfStr(userGuid), OfStr(userDomainGuid), OfStr(eventType), OfStr(messageGuid), OfInt(timestamp)])
    }

    function JsonSerialize(): (r: PhpArray)
      reads this
      ensures r == ToArray()
    {
      ToArray()
    }
  }

  /** No key of `toArray()` is repeated. */
  lemma KeysDistinct()
    ensures Distinct(Keys)
  {
  }

  /** toArray keeps every property: the array is accepted by the constructor, reading it
      back gives the properties again, and rebuilding from it gives the same array. */
  lemma ToArrayReadsBack(c: LogEntry)
    ensures var r := c.ToArray();
            && WellTyped(r)
            && AsInt(Get(r, StrKey(IdKey))) == c.id
            && AsStr(Get(r, StrKey(UserGuidKey))) == c.userGuid
            && AsStr(Get(r, StrKey(UserDomainGuidKey))) == c.userDomainGuid
            && AsStr(Get(r, StrKey(EventTypeKey))) == c.eventType
            && AsStr(Get(r, StrKey(MessageGuidKey))) == c.messageGuid
            && AsInt(Get(r, StrKey(TimestampKey))) == c.timestamp
            && Project(r, Keys) == r
  {
    assert Keys[0] == IdKey && Keys[1] == UserGuidKey && Keys[2] == UserDomainGuidKey && Keys[3] == EventTypeKey && Keys[4] == MessageGuidKey && Keys[5] == TimestampKey;
    KeysDistinct();
    RecordGet(Keys, [OfInt(c.id), OfStr(c.userGuid), OfStr(c.userDomainGuid), OfStr(c.eventType), OfStr(c.messageGuid), OfInt(c.timestamp)]);
    ProjectIdentity(c.ToArray(), Keys);
  }

  /** The projection of any array on `Keys` is the record of its values under those keys. */
  lemma ProjectOnKeys(d: PhpArray)
    ensures Project(d, Keys) == Record(Keys, [Get(d, StrKey(IdKey)), Get(d, StrKey(UserGuidKey)), Get(d, StrKey(UserDomainGuidKey)), Get(d, StrKey(EventTypeKey)), Get(d, StrKey(MessageGuidKey)), Get(d, StrKey(TimestampKey))])
  {
    var vs := [Get(d, StrKey(IdKey)), Get(d, StrKey(UserGuidKey)), Get(d, StrKey(UserDomainGuidKey)), Get(d, StrKey(EventTypeKey)), Get(d, StrKey(MessageGuidKey)), Get(d, StrKey(TimestampKey))];
    forall i | 0 <= i < |Keys| ensures vs[i] == Get(d, StrKey(Keys[i])) {
      assert i == 0 || i == 1 || i == 2 || i == 3 || i == 4 || i == 5;
    }
  }

  /** `new LogEntry($v)` for a decoded value: a TypeError unless `$v` is an array of well-typed values. */
  method Build(v: Value) returns (r: Result<LogEntry, Raised>)
    ensures r.Success? <==> Accepts(v)
    ensures r.Success? ==> fresh(r.value) && r.value.ToArray() == Project(v.entries, Keys)
    ensures r.Failure? ==> r.error == TypeError
  {
    if Accepts(v) {
      var c := new LogEntry(v.entries);
      r := Success(c);
    } else {
      r := Failure(TypeError);
    }
  }

  /** `c` is what `new LogEntry($v)` makes of an accepted value. */
  predicate BuiltFrom(c: LogEntry, v: Value)
    reads c
  {
    Accepts(v) && c.ToArray() == Project(v.entries, Keys)
  }

  /** `foreach ($items as $d) { $list[] = new LogEntry($d); }`: the first item the constructor
      refuses raises a TypeError; otherwise one new object per item, in order. */
  method BuildAll(items: seq<Value>) returns (r: Result<seq<LogEntry>, Raised>)
    ensures r.Success? <==> forall i :: 0 <= i < |items| ==> Accepts(items[i])
    ensures r.Success? ==> |r.value| == |items|
    ensures r.Success? ==> forall i :: 0 <= i < |items| ==>
              fresh(r.value[i]) && r.value[i].ToArray() == Project(items[i].entries, Keys)
    ensures r.Failure? ==> r.error == TypeError
  {
    var built: seq<LogEntry> := [];
    var i := 0;
    while i < |items|
      invariant 0 <= i <= |items| && |built| == i
      invariant forall j :: 0 <= j < i ==> fresh(built[j]) && BuiltFrom(built[j], items[j])
    {
      var c := Build(items[i]);
      if c.Failure? {
        return Failure(c.error);
      }
      built := built + [c.value];
      i := i + 1;
    }
    return Success(built);
  }

  /** Each event predicate answers for its own event type and no other: at most one holds, and
      one holds exactly when the entry's event type is one of the eleven known ones. */
  lemma EventPredicatesPartition(e: LogEntry)
    ensures forall i :: 0 <= i < |EventTypes| ==> (e.EventFlags()[i] <==> e.eventType == Some(EventTypes[i]))
    ensures forall i, j :: 0 <= i < j < |EventTypes| ==> !(e.EventFlags()[i] && e.EventFlags()[j])
    ensures (exists i :: 0 <= i < |EventTypes| && e.EventFlags()[i]) <==>
            e.eventType.Some? && e.eventType.value in EventTypes
  {
    var flags := e.EventFlags();
    forall i | 0 <= i < |EventTypes| ensures flags[i] <==> e.eventType == Some(EventTypes[i]) {
      assert i == 0 || i == 1 || i == 2 || i == 3 || i == 4 || i == 5 || i == 6 || i == 7 || i == 8 || i == 9 || i == 10;
    }
    assert Distinct(EventTypes);
    if e.eventType.Some? && e.eventType.value in EventTypes {
      var i :| 0 <= i < |EventTypes| && EventTypes[i] == e.eventType.value;
      assert flags[i];
    }
  }

}
