/** A sending domain: its DNS and DKIM records, its tracking switches, its
    tracking-link and authentication sub-domains and their verification state. */
module DomainModel {
  import opened PhpValues
  import opened PhpRuntime
  import opened Exceptions

  const IdKey := "id"
  const DomainKey := "domain"
  const TracklinkDomainKey := "tracklink_domain"
  const TracklinkDomainIsVerifiedKey := "tracklink_domain_is_verified"
  const AuthDomainIsVerifiedKey := "auth_domain_is_verified"
  const DnsSelectorKey := "dns_selector"
  const DnsRecordKey := "dns_record"
  const ClickTrackKey := "click_track"
  const OpenTrackKey := "open_track"
  const UnsubTrackKey := "unsub_track"
  const IsVerifiedKey := "is_verified"
  const StatusKey := "status"
  const CreatedAtKey := "created_at"
  const ModifiedAtKey := "modified_at"
  const AuthDomainKey := "auth_domain"
  const AuthDomainDkimRecordKey := "auth_domain_dkim_record"
  const AuthDomainDkimSelectorKey := "auth_domain_dkim_selector"

  /** The keys of `toArray()`, in order; the constructor reads the same keys. */
  const Keys: seq<string> := [IdKey, DomainKey, TracklinkDomainKey, TracklinkDomainIsVerifiedKey, AuthDomainIsVerifiedKey, DnsSelectorKey, DnsRecordKey, ClickTrackKey, OpenTrackKey, UnsubTrackKey, IsVerifiedKey, StatusKey, CreatedAtKey, ModifiedAtKey, AuthDomainKey, AuthDomainDkimRecordKey, AuthDomainDkimSelectorKey]

  /** Can `new Domain($d)` store every value in its typed property? */
  predicate WellTyped(d: PhpArray) {
    && IsIntOrNull(Get(d, StrKey(IdKey)))
    && IsStrOrNull(Get(d, StrKey(DomainKey)))
    && IsStrOrNull(Get(d, StrKey(TracklinkDomainKey)))
    && IsBoolOrNull(Get(d, StrKey(TracklinkDomainIsVerifiedKey)))
    && IsBoolOrNull(Get(d, StrKey(AuthDomainIsVerifiedKey)))
    && IsStrOrNull(Get(d, StrKey(DnsSelectorKey)))
    && IsStrOrNull(Get(d, StrKey(DnsRecordKey)))
    && IsBoolOrNull(Get(d, StrKey(ClickTrackKey)))
    && IsBoolOrNull(Get(d, StrKey(OpenTrackKey)))
    && IsBoolOrNull(Get(d, StrKey(UnsubTrackKey)))
    && IsBoolOrNull(Get(d, StrKey(IsVerifiedKey)))
    && IsBoolOrNull(Get(d, StrKey(StatusKey)))
    && IsIntOrNull(Get(d, StrKey(CreatedAtKey)))
    && IsIntOrNull(Get(d, StrKey(ModifiedAtKey)))
    && IsStrOrNull(Get(d, StrKey(AuthDomainKey)))
    && IsStrOrNull(Get(d, StrKey(AuthDomainDkimRecordKey)))
    && IsStrOrNull(Get(d, StrKey(AuthDomainDkimSelectorKey)))
  }

  /** `new Domain($v)` succeeds: `$v` is an array of well-typed values. */
  predicate Accepts(v: Value) {
    v.Arr? && WellTyped(v.entries)
  }

  class Domain {
    var id: Option<int>
    var domain: Option<string>
    var tracklinkDomain: Option<string>
    var tracklinkDomainIsVerified: Option<bool>
    var authDomainIsVerified: Option<bool>
    var dnsSelector: Option<string>
    var dnsRecord: Option<string>
    var clickTrack: Option<bool>
    var openTrack: Option<bool>
    var unsubTrack: Option<bool>
    var isVerified: Option<bool>
    var status: Option<bool>
    var createdAt: Option<int>
    var modifiedAt: Option<int>
    var authDomain: Option<string>
    var authDomainDkimRecord: Option<string>
    var authDomainDkimSelector: Option<string>

    /** `new Domain($data)`: each property from its key, null when the key is absent. */
    constructor (data: PhpArray)
      requires WellTyped(data)
      ensures id == AsInt(Get(data, StrKey(IdKey)))
      ensures domain == AsStr(Get(data, StrKey(DomainKey)))
      ensures tracklinkDomain == AsStr(Get(data, StrKey(TracklinkDomainKey)))
      ensures tracklinkDomainIsVerified == AsBool(Get(data, StrKey(TracklinkDomainIsVerifiedKey)))
      ensures authDomainIsVerified == AsBool(Get(data, StrKey(AuthDomainIsVerifiedKey)))
      ensures dnsSelector == AsStr(Get(data, StrKey(DnsSelectorKey)))
      ensures dnsRecord == AsStr(Get(data, StrKey(DnsRecordKey)))
      ensures clickTrack == AsBool(Get(data, StrKey(ClickTrackKey)))
      ensures openTrack == AsBool(Get(data, StrKey(OpenTrackKey)))
      ensures unsubTrack == AsBool(Get(data, StrKey(UnsubTrackKey)))
      ensures isVerified == AsBool(Get(data, StrKey(IsVerifiedKey)))
      ensures status == AsBool(Get(data, StrKey(StatusKey)))
      ensures createdAt == AsInt(Get(data, StrKey(CreatedAtKey)))
      ensures modifiedAt == AsInt(Get(data, StrKey(ModifiedAtKey)))
      ensures authDomain == AsStr(Get(data, StrKey(AuthDomainKey)))
      ensures authDomainDkimRecord == AsStr(Get(data, StrKey(AuthDomainDkimRecordKey)))
      ensures authDomainDkimSelector == AsStr(Get(data, StrKey(AuthDomainDkimSelectorKey)))
      ensures ToArray() == Project(data, Keys)
    {
      id := AsInt(Get(data, StrKey(IdKey)));
      domain := AsStr(Get(data, StrKey(DomainKey)));
      tracklinkDomain := AsStr(Get(data, StrKey(TracklinkDomainKey)));
      tracklinkDomainIsVerified := AsBool(Get(data, StrKey(TracklinkDomainIsVerifiedKey)));
      authDomainIsVerified := AsBool(Get(data, StrKey(AuthDomainIsVerifiedKey)));
      dnsSelector := AsStr(Get(data, StrKey(DnsSelectorKey)));
      dnsRecord := AsStr(Get(data, StrKey(DnsRecordKey)));
      clickTrack := AsBool(Get(data, StrKey(ClickTrackKey)));
      openTrack := AsBool(Get(data, StrKey(OpenTrackKey)));
      unsubTrack := AsBool(Get(data, StrKey(UnsubTrackKey)));
      isVerified := AsBool(Get(data, StrKey(IsVerifiedKey)));
      status := AsBool(Get(data, StrKey(StatusKey)));
      createdAt := AsInt(Get(data, StrKey(CreatedAtKey)));
      modifiedAt := AsInt(Get(data, StrKey(ModifiedAtKey)));
      authDomain := AsStr(Get(data, StrKey(AuthDomainKey)));
      authDomainDkimRecord := AsStr(Get(data, StrKey(AuthDomainDkimRecordKey)));
      authDomainDkimSelector := AsStr(Get(data, StrKey(AuthDomainDkimSelectorKey)));
      ProjectOnKeys(data);
      StoredValue(Get(data, StrKey(IdKey)));
      StoredValue(Get(data, StrKey(DomainKey)));
      StoredValue(Get(data, StrKey(TracklinkDomainKey)));
      StoredValue(Get(data, StrKey(TracklinkDomainIsVerifiedKey)));
      StoredValue(Get(data, StrKey(AuthDomainIsVerifiedKey)));
      StoredValue(Get(data, StrKey(DnsSelectorKey)));
      StoredValue(Get(data, StrKey(DnsRecordKey)));
      StoredValue(Get(data, StrKey(ClickTrackKey)));
      StoredValue(Get(data, StrKey(OpenTrackKey)));
      StoredValue(Get(data, StrKey(UnsubTrackKey)));
      StoredValue(Get(data, StrKey(IsVerifiedKey)));
      StoredValue(Get(data, StrKey(StatusKey)));
      StoredValue(Get(data, StrKey(CreatedAtKey)));
      StoredValue(Get(data, StrKey(ModifiedAtKey)));
      StoredValue(Get(data, StrKey(AuthDomainKey)));
      StoredValue(Get(data, StrKey(AuthDomainDkimRecordKey)));
      StoredValue(Get(data, StrKey(AuthDomainDkimSelectorKey)));
    }

    method SetId(id: Option<int>) returns (self: Domain)
      modifies this`id
      ensures self == this && this.id == id
    {
      this.id := id;
      self := this;
    }

    method SetDomain(domain: Option<string>) returns (self: Domain)
      modifies this`domain
      ensures self == this && this.domain == domain
    {
      this.domain := domain;
      self := this;
    }

    method SetIsVerified(isVerified: Option<bool>) returns (self: Domain)
      modifies this`isVerified
      ensures self == this && this.isVerified == isVerified
    {
      this.isVerified := isVerified;
      self := this;
    }

    method SetAuthDomain(authDomain: Option<string>) returns (self: Domain)
      modifies this`authDomain
      ensures self == this && this.authDomain == authDomain
    {
      this.authDomain := authDomain;
      self := this;
    }

    method SetCreatedAt(createdAt: Option<int>) returns (self: Domain)
      modifies this`createdAt
      ensures self == this && this.createdAt == createdAt
    {
      this.createdAt := createdAt;
      self := this;
    }

    method SetModifiedAt(modifiedAt: Option<int>) returns (self: Domain)
      modifies this`modifiedAt
      ensures self == this && this.modifiedAt == modifiedAt
    {
      this.modifiedAt := modifiedAt;
      self := this;
    }

    method SetTracklinkDomain(tracklinkDomain: Option<string>) returns (self: Domain)
      modifies this`tracklinkDomain
      ensures self == this && this.tracklinkDomain == tracklinkDomain
    {
      this.tracklinkDomain := tracklinkDomain;
      self := this;
    }

    method SetTracklinkDomainVerified(tracklinkDomainIsVerified: Option<bool>) returns (self: Domain)
      modifies this`tracklinkDomainIsVerified
      ensures self == this && this.tracklinkDomainIsVerified == tracklinkDomainIsVerified
    {
      this.tracklinkDomainIsVerified := tracklinkDomainIsVerified;
      self := this;
    }

    method SetAuthDomainVerified(authDomainIsVerified: Option<bool>) returns (self: Domain)
      modifies this`authDomainIsVerified
      ensures self == this && this.authDomainIsVerified == authDomainIsVerified
    {
      this.authDomainIsVerified := authDomainIsVerified;
      self := this;
    }

    method SetDnsSelector(dnsSelector: Option<string>) returns (self: Domain)
      modifies this`dnsSelector
      ensures self == this && this.dnsSelector == dnsSelector
    {
      this.dnsSelector := dnsSelector;
      self := this;
    }

    method SetDnsRecord(dnsRecord: Option<string>) returns (self: Domain)
      modifies this`dnsRecord
      ensures self == this && this.dnsRecord == dnsRecord
    {
      this.dnsRecord := dnsRecord;
      self := this;
    }

    method SetClickTrack(clickTrack: Option<bool>) returns (self: Domain)
      modifies this`clickTrack
      ensures self == this && this.clickTrack == clickTrack
    {
      this.clickTrack := clickTrack;
      self := this;
    }

    method SetOpenTrack(openTrack: Option<bool>) returns (self: Domain)
      modifies this`openTrack
      ensures self == this && this.openTrack == openTrack
    {
      this.openTrack := openTrack;
      self := this;
    }

    method SetUnsubTrack(unsubTrack: Option<bool>) returns (self: Domain)
      modifies this`unsubTrack
      ensures self == this && this.unsubTrack == unsubTrack
    {
      this.unsubTrack := unsubTrack;
      self := this;
    }

    method SetStatus(status: Option<bool>) returns (self: Domain)
      modifies this`status
      ensures self == this && this.status == status
    {
      this.status := status;
      self := this;
    }

    method SetAuthDomainDkimRecord(authDomainDkimRecord: Option<string>) returns (self: Domain)
      modifies this`authDomainDkimRecord
      ensures self == this && this.authDomainDkimRecord == authDomainDkimRecord
    {
      this.authDomainDkimRecord := authDomainDkimRecord;
      self := this;
    }

    method SetAuthDomainDkimSelector(authDomainDkimSelector: Option<string>) returns (self: Domain)
      modifies this`authDomainDkimSelector
      ensures self == this && this.authDomainDkimSelector == authDomainDkimSelector
    {
      this.authDomainDkimSelector := authDomainDkimSelector;
      self := this;
    }

    /** The creation time as a DateTime in UTC; null when the timestamp is null or 0. */
    function CreatedAtDateTime(): (r: Option<DateTime>)
      reads this
      ensures r.Some? <==> createdAt.Some? && createdAt.value != 0
      ensures r.Some? ==> r.value.timestamp == createdAt.value && r.value.offset == 0
    {
      TimestampDateTime(createdAt)
    }

    /** The last modification time as a DateTime in UTC; null when the timestamp is null or 0. */
    function ModifiedAtDateTime(): (r: Option<DateTime>)
      reads this
      ensures r.Some? <==> modifiedAt.Some? && modifiedAt.value != 0
      ensures r.Some? ==> r.value.timestamp == modifiedAt.value && r.value.offset == 0
    {
      TimestampDateTime(modifiedAt)
    }


    /** `toArray()`: every property under its key, in the order of `Keys`. */
    function ToArray(): (r: PhpArray)
      reads this
      ensures KeysOf(r) == StrKeys(Keys)
    {
      Record(Keys, [OfInt(id), OfStr(domain), OfStr(tracklinkDomain), OfBool(tracklinkDomainIsVerified), OfBool(authDomainIsVerified), OfStr(dnsSelector), OfStr(dnsRecord), OfBool(clickTrack), OfBool(openTrack), OfBool(unsubTrack), OfBool(isVerified), OfBool(status), OfInt(createdAt), OfInt(modifiedAt), OfStr(authDomain), OfStr(authDomainDkimRecord), OfStr(authDomainDkimSelector)])
    }

    function JsonSerialize(): (r: PhpArray)
      reads this
      ensures r == ToArray()
    {
      ToArray()
    }
  }

  /** No key of `toArray()` is repeated. */
  lemma KeysDistinct()
    ensures Distinct(Keys)
  {
  }

  /** toArray keeps every property: the array is accepted by the constructor, reading it
      back gives the properties again, and rebuilding from it gives the same array. */
  lemma ToArrayReadsBack(c: Domain)
    ensures var r := c.ToArray();
            && WellTyped(r)
            && AsInt(Get(r, StrKey(IdKey))) == c.id
            && AsStr(Get(r, StrKey(DomainKey))) == c.domain
            && AsStr(Get(r, StrKey(TracklinkDomainKey))) == c.tracklinkDomain
            && AsBool(Get(r, StrKey(TracklinkDomainIsVerifiedKey))) == c.tracklinkDomainIsVerified
            && AsBool(Get(r, StrKey(AuthDomainIsVerifiedKey))) == c.authDomainIsVerified
            && AsStr(Get(r, StrKey(DnsSelectorKey))) == c.dnsSelector
            && AsStr(Get(r, StrKey(DnsRecordKey))) == c.dnsRecord
            && AsBool(Get(r, StrKey(ClickTrackKey))) == c.clickTrack
            && AsBool(Get(r, StrKey(OpenTrackKey))) == c.openTrack
            && AsBool(Get(r, StrKey(UnsubTrackKey))) == c.unsubTrack
            && AsBool(Get(r, StrKey(IsVerifiedKey))) == c.isVerified
            && AsBool(Get(r, StrKey(StatusKey))) == c.status
            && AsInt(Get(r, StrKey(CreatedAtKey))) == c.createdAt
            && AsInt(Get(r, StrKey(ModifiedAtKey))) == c.modifiedAt
            && AsStr(Get(r, StrKey(AuthDomainKey))) == c.authDomain
            && AsStr(Get(r, StrKey(AuthDomainDkimRecordKey))) == c.authDomainDkimRecord
            && AsStr(Get(r, StrKey(AuthDomainDkimSelectorKey))) == c.authDomainDkimSelector
            && Project(r, Keys) == r
  {
    assert Keys[0] == IdKey && Keys[1] == DomainKey && Keys[2] == TracklinkDomainKey && Keys[3] == TracklinkDomainIsVerifiedKey && Keys[4] == AuthDomainIsVerifiedKey && Keys[5] == DnsSelectorKey && Keys[6] == DnsRecordKey && Keys[7] == ClickTrackKey && Keys[8] == OpenTrackKey && Keys[9] == UnsubTrackKey && Keys[10] == IsVerifiedKey && Keys[11] == StatusKey && Keys[12] == CreatedAtKey && Keys[13] == ModifiedAtKey && Keys[14] == AuthDomainKey && Keys[15] == AuthDomainDkimRecordKey && Keys[16] == AuthDomainDkimSelectorKey;
    KeysDistinct();
    RecordGet(Keys, [OfInt(c.id), OfStr(c.domain), OfStr(c.tracklinkDomain), OfBool(c.tracklinkDomainIsVerified), OfBool(c.authDomainIsVerified), OfStr(c.dnsSelector), OfStr(c.dnsRecord), OfBool(c.clickTrack), OfBool(c.openTrack), OfBool(c.unsubTrack), OfBool(c.isVerified), OfBool(c.status), OfInt(c.createdAt), OfInt(c.modifiedAt), OfStr(c.authDomain), OfStr(c.authDomainDkimRecord), OfStr(c.authDomainDkimSelector)]);
    ProjectIdentity(c.ToArray(), Keys);
  }

  /** The projection of any array on `Keys` is the record of its values under those keys. */
  lemma ProjectOnKeys(d: PhpArray)
    ensures Project(d, Keys) == Record(Keys, [Get(d, StrKey(IdKey)), Get(d, StrKey(DomainKey)), Get(d, StrKey(TracklinkDomainKey)), Get(d, StrKey(TracklinkDomainIsVerifiedKey)), Get(d, StrKey(AuthDomainIsVerifiedKey)), Get(d, StrKey(DnsSelectorKey)), Get(d, StrKey(DnsRecordKey)), Get(d, StrKey(ClickTrackKey)), Get(d, StrKey(OpenTrackKey)), Get(d, StrKey(UnsubTrackKey)), Get(d, StrKey(IsVerifiedKey)), Get(d, StrKey(StatusKey)), Get(d, StrKey(CreatedAtKey)), Get(d, StrKey(ModifiedAtKey)), Get(d, StrKey(AuthDomainKey)), Get(d, StrKey(AuthDomainDkimRecordKey)), Get(d, StrKey(AuthDomainDkimSelectorKey))])
  {
    var vs := [Get(d, StrKey(IdKey)), Get(d, StrKey(DomainKey)), Get(d, StrKey(TracklinkDomainKey)), Get(d, StrKey(TracklinkDomainIsVerifiedKey)), Get(d, StrKey(AuthDomainIsVerifiedKey)), Get(d, StrKey(DnsSelectorKey)), Get(d, StrKey(DnsRecordKey)), Get(d, StrKey(ClickTrackKey)), Get(d, StrKey(OpenTrackKey)), Get(d, StrKey(UnsubTrackKey)), Get(d, StrKey(IsVerifiedKey)), Get(d, StrKey(StatusKey)), Get(d, StrKey(CreatedAtKey)), Get(d, StrKey(ModifiedAtKey)), Get(d, StrKey(AuthDomainKey)), Get(d, StrKey(AuthDomainDkimRecordKey)), Get(d, StrKey(AuthDomainDkimSelectorKey))];
    forall i | 0 <= i < |Keys| ensures vs[i] == Get(d, StrKey(Keys[i])) {
      assert i == 0 || i == 1 || i == 2 || i == 3 || i == 4 || i == 5 || i == 6 || i == 7 || i == 8 || i == 9 || i == 10 || i == 11 || i == 12 || i == 13 || i == 14 || i == 15 || i == 16;
    }
  }

  /** `new Domain($v)` for a decoded value: a TypeError unless `$v` is an array of well-typed values. */
  method Build(v: Value) returns (r: Result<Domain, Raised>)
    ensures r.Success? <==> Accepts(v)
    ensures r.Success? ==> fresh(r.value) && r.value.ToArray() == Project(v.entries, Keys)
    ensures r.Failure? ==> r.error == TypeError
  {
    if Accepts(v) {
      var c := new Domain(v.entries);
      r := Success(c);
    } else {
      r := Failure(TypeError);
    }
  }

  /** `c` is what `new Domain($v)` makes of an accepted value. */
  predicate BuiltFrom(c: Domain, v: Value)
    reads c
  {
    Accepts(v) && c.ToArray() == Project(v.entries, Keys)
  }

  /** `foreach ($items as $d) { $list[] = new Domain($d); }`: the first item the constructor
      refuses raises a TypeError; otherwise one new object per item, in order. */
  method BuildAll(items: seq<Value>) returns (r: Result<seq<Domain>, Raised>)
    ensures r.Success? <==> forall i :: 0 <= i < |items| ==> Accepts(items[i])
    ensures r.Success? ==> |r.value| == |items|
    ensures r.Success? ==> forall i :: 0 <= i < |items| ==>
              fresh(r.value[i]) && r.value[i].ToArray() == Project(items[i].entries, Keys)
    ensures r.Failure? ==> r.error == TypeError
  {
    var built: seq<Domain> := [];
    var i := 0;
    while i < |items|
      invariant 0 <= i <= |items| && |built| == i
      invariant forall j :: 0 <= j < i ==> fresh(built[j]) && BuiltFrom(built[j], items[j])
    {
      var c := Build(items[i]);
      if c.Failure? {
        return Failure(c.error);
      }
      built := built + [c.value];
      i := i + 1;
    }
    return Success(built);
  }


}
