/** A suppression entry of a domain: a recipient (an address or a whole domain)
    on the unsubscribe, bounce or whitelist list. The property holding the list
    name is called `suppressionType` here because `type` is a Dafny keyword. */
module SuppressionModel {
  import opened PhpValues
  import opened PhpRuntime
  import opened Exceptions

  const IdKey := "id"
  const UserGuidKey := "user_guid"
  const UserDomainGuidKey := "user_domain_guid"
  const SuppressionTypeKey := "type"
  const RecipientTypeKey := "recipient_type"
  const RecipientKey := "recipient"
  const DescriptionKey := "description"
  const SourceKey := "source"
  const TagsKey := "tags"
  const CreatedAtKey := "created_at"
  const ModifiedAtKey := "modified_at"

  /** The keys of `toArray()`, in order; the constructor reads the same keys. */
  const Keys: seq<string> := [IdKey, UserGuidKey, UserDomainGuidKey, SuppressionTypeKey, RecipientTypeKey, RecipientKey, DescriptionKey, SourceKey, TagsKey, CreatedAtKey, ModifiedAtKey]

  /** Can `new Suppression($d)` store every value in its typed property? */
  predicate WellTyped(d: PhpArray) {
    && IsIntOrNull(Get(d, StrKey(IdKey)))
    && IsStrOrNull(Get(d, StrKey(UserGuidKey)))
    && IsStrOrNull(Get(d, StrKey(UserDomainGuidKey)))
    && IsStrOrNull(Get(d, StrKey(SuppressionTypeKey)))
    && IsStrOrNull(Get(d, StrKey(RecipientTypeKey)))
    && IsStrOrNull(Get(d, StrKey(RecipientKey)))
    && IsStrOrNull(Get(d, StrKey(DescriptionKey)))
    && IsStrOrNull(Get(d, StrKey(SourceKey)))
    && IsArrOrNull(Get(d, StrKey(TagsKey)))
    && IsIntOrNull(Get(d, StrKey(CreatedAtKey)))
    && IsIntOrNull(Get(d, StrKey(ModifiedAtKey)))
  }

  /** `new Suppression($v)` succeeds: `$v` is an array of well-typed values. */
  predicate Accepts(v: Value) {
    v.Arr? && WellTyped(v.entries)
  }

  class Suppression {
    var id: Option<int>
    var userGuid: Option<string>
    var userDomainGuid: Option<string>
    var suppressionType: Option<string>
    var recipientType: Option<string>
    var recipient: Option<string>
    var description: Option<string>
    var source: Option<string>
    var tags: Option<PhpArray>
    var createdAt: Option<int>
    var modifiedAt: Option<int>

    /** `new Suppression($data)`: each property from its key, null when the key is absent. */
    constructor (data: PhpArray)
      requires WellTyped(data)
      ensures id == AsInt(Get(data, StrKey(IdKey)))
      ensures userGuid == AsStr(Get(data, StrKey(UserGuidKey)))
      ensures userDomainGuid == AsStr(Get(data, StrKey(UserDomainGuidKey)))
      ensures suppressionType == AsStr(Get(data, StrKey(SuppressionTypeKey)))
      ensures recipientType == AsStr(Get(data, StrKey(RecipientTypeKey)))
      ensures recipient == AsStr(Get(data, StrKey(RecipientKey)))
      ensures description == AsStr(Get(data, StrKey(DescriptionKey)))
      ensures source == AsStr(Get(data, StrKey(SourceKey)))
      ensures tags == AsArr(Get(data, StrKey(TagsKey)))
      ensures createdAt == AsInt(Get(data, StrKey(CreatedAtKey)))
      ensures modifiedAt == AsInt(Get(data, StrKey(ModifiedAtKey)))
      ensures ToArray() == Project(data, Keys)
    {
      id := AsInt(Get(data, StrKey(IdKey)));
      userGuid := AsStr(Get(data, StrKey(UserGuidKey)));
      userDomainGuid := AsStr(Get(data, StrKey(UserDomainGuidKey)));
      suppressionType := AsStr(Get(data, StrKey(SuppressionTypeKey)));
      recipientType := AsStr(Get(data, StrKey(RecipientTypeKey)));
      recipient := AsStr(Get(data, StrKey(RecipientKey)));
      description := AsStr(Get(data, StrKey(DescriptionKey)));
      source := AsStr(Get(data, StrKey(SourceKey)));
      tags := AsArr(Get(data, StrKey(TagsKey)));
      createdAt := AsInt(Get(data, StrKey(CreatedAtKey)));
      modifiedAt := AsInt(Get(data, StrKey(ModifiedAtKey)));
      ProjectOnKeys(data);
      StoredValue(Get(data, StrKey(IdKey)));
      StoredValue(Get(data, StrKey(UserGuidKey)));
      StoredValue(Get(data, StrKey(UserDomainGuidKey)));
      StoredValue(Get(data, StrKey(SuppressionTypeKey)));
      StoredValue(Get(data, StrKey(RecipientTypeKey)));
      StoredValue(Get(data, StrKey(RecipientKey)));
      StoredValue(Get(data, StrKey(DescriptionKey)));
      StoredValue(Get(data, StrKey(SourceKey)));
      StoredValue(Get(data, StrKey(TagsKey)));
      StoredValue(Get(data, StrKey(CreatedAtKey)));
      StoredValue(Get(data, StrKey(ModifiedAtKey)));
    }

    method SetId(id: Option<int>) returns (self: Suppression)
      modifies this`id
      ensures self == this && this.id == id
    {
      this.id := id;
      self := this;
    }

    method SetUserGuid(userGuid: Option<string>) returns (self: Suppression)
      modifies this`userGuid
      ensures self == this && this.userGuid == userGuid
    {
      this.userGuid := userGuid;
      self := this;
    }

    method SetUserDomainGuid(userDomainGuid: Option<string>) returns (self: Suppression)
      modifies this`userDomainGuid
      ensures self == this && this.userDomainGuid == userDomainGuid
    {
      this.userDomainGuid := userDomainGuid;
      self := this;
    }

    method SetType(suppressionType: Option<string>) returns (self: Suppression)
      modifies this`suppressionType
      ensures self == this && this.suppressionType == suppressionType
    {
      this.suppressionType := suppressionType;
      self := this;
    }

    method SetRecipientType(recipientType: Option<string>) returns (self: Suppression)
      modifies this`recipientType
      ensures self == this && this.recipientType == recipientType
    {
      this.recipientType := recipientType;
      self := this;
    }

    method SetRecipient(recipient: Option<string>) returns (self: Suppression)
      modifies this`recipient
      ensures self == this && this.recipient == recipient
    {
      this.recipient := recipient;
      self := this;
    }

    method SetDescription(description: Option<string>) returns (self: Suppression)
      modifies this`description
      ensures self == this && this.description == description
    {
      this.description := description;
      self := this;
    }

    method SetSource(source: Option<string>) returns (self: Suppression)
      modifies this`source
      ensures self == this && this.source == source
    {
      this.source := source;
      self := this;
    }

    method SetTags(tags: Option<PhpArray>) returns (self: Suppression)
      modifies this`tags
      ensures self == this && this.tags == tags
    {
      this.tags := tags;
      self := this;
    }

    method SetCreatedAt(createdAt: Option<int>) returns (self: Suppression)
      modifies this`createdAt
      ensures self == this && this.createdAt == createdAt
    {
      this.createdAt := createdAt;
      self := this;
    }

    method SetModifiedAt(modifiedAt: Option<int>) returns (self: Suppression)
      modifies this`modifiedAt
      ensures self == this && this.modifiedAt == modifiedAt
    {
      this.modifiedAt := modifiedAt;
      self := this;
    }

    /** The creation time as a DateTime in UTC; null when the timestamp is null or 0. */
    function CreatedAtDateTime(): (r: Option<DateTime>)
      reads this
      ensures r.Some? <==> createdAt.Some? && createdAt.value != 0
      ensures r.Some? ==> r.value.timestamp == createdAt.value && r.value.offset == 0
    {
      TimestampDateTime(createdAt)
    }

    /** The last modification time as a DateTime in UTC; null when the timestamp is null or 0. */
    function ModifiedAtDateTime(): (r: Option<DateTime>)
      reads this
      ensures r.Some? <==> modifiedAt.Some? && modifiedAt.value != 0
      ensures r.Some? ==> r.value.timestamp == modifiedAt.value && r.value.offset == 0
    {
      TimestampDateTime(modifiedAt)
    }

    predicate IsUnsubscribe()
      reads this
    {
      suppressionType == Some("unsubscribe")
    }

    predicate IsBounce()
      reads this
    {
      suppressionType == Some("bounce")
    }

    predicate IsWhitelist()
      reads this
    {
      suppressionType == Some("whitelist")
    }

    predicate IsEmailType()
      reads this
    {
      recipientType == Some("email")
    }

    predicate IsDomainType()
      reads this
    {
      recipientType == Some("domain")
    }


    /** `toArray()`: every property under its key, in the order of `Keys`. */
    function ToArray(): (r: PhpArray)
      reads this
      ensures KeysOf(r) == StrKeys(Keys)
    {
      Record(Keys, [OfInt(id), OfStr(userGuid), OfStr(userDomainGuid), OfStr(suppressionType), OfStr(recipientType), OfStr(recipient), OfStr(description), OfStr(source), OfArr(tags), OfInt(createdAt), OfInt(modifiedAt)])
    }

    function JsonSerialize(): (r: PhpArray)
      reads this
      ensures r == ToArray()
    {
      ToArray()
    }
  }

  /** No key of `toArray()` is repeated. */
  lemma KeysDistinct()
    ensures Distinct(Keys)
  {
  }

  /** toArray keeps every property: the array is accepted by the constructor, reading it
      back gives the properties again, and rebuilding from it gives the same array. */
  lemma ToArrayReadsBack(c: Suppression)
    ensures var r := c.ToArray();
            && WellTyped(r)
            && AsInt(Get(r, StrKey(IdKey))) == c.id
            && AsStr(Get(r, StrKey(UserGuidKey))) == c.userGuid
            && AsStr(Get(r, StrKey(UserDomainGuidKey))) == c.userDomainGuid
            && AsStr(Get(r, StrKey(SuppressionTypeKey))) == c.suppressionType
            && AsStr(Get(r, StrKey(RecipientTypeKey))) == c.recipientType
            && AsStr(Get(r, StrKey(RecipientKey))) == c.recipient
            && AsStr(Get(r, StrKey(DescriptionKey))) == c.description
            && AsStr(Get(r, StrKey(SourceKey))) == c.source
            && AsArr(Get(r, StrKey(TagsKey))) == c.tags
            && AsInt(Get(r, StrKey(CreatedAtKey))) == c.createdAt
            && AsInt(Get(r, StrKey(ModifiedAtKey))) == c.modifiedAt
            && Project(r, Keys) == r
  {
    assert Keys[0] == IdKey && Keys[1] == UserGuidKey && Keys[2] == UserDomainGuidKey && Keys[3] == SuppressionTypeKey && Keys[4] == RecipientTypeKey && Keys[5] == RecipientKey && Keys[6] == DescriptionKey && Keys[7] == SourceKey && Keys[8] == TagsKey && Keys[9] == CreatedAtKey && Keys[10] == ModifiedAtKey;
    KeysDistinct();
    RecordGet(Keys, [OfInt(c.id), OfStr(c.userGuid), OfStr(c.userDomainGuid), OfStr(c.suppressionType), OfStr(c.recipientType), OfStr(c.recipient), OfStr(c.description), OfStr(c.source), OfArr(c.tags), OfInt(c.createdAt), OfInt(c.modifiedAt)]);
    ProjectIdentity(c.ToArray(), Keys);
  }

  /** The projection of any array on `Keys` is the record of its values under those keys. */
  lemma ProjectOnKeys(d: PhpArray)
    ensures Project(d, Keys) == Record(Keys, [Get(d, StrKey(IdKey)), Get(d, StrKey(UserGuidKey)), Get(d, StrKey(UserDomainGuidKey)), Get(d, StrKey(SuppressionTypeKey)), Get(d, StrKey(RecipientTypeKey)), Get(d, StrKey(RecipientKey)), Get(d, StrKey(DescriptionKey)), Get(d, StrKey(SourceKey)), Get(d, StrKey(TagsKey)), Get(d, StrKey(CreatedAtKey)), Get(d, StrKey(ModifiedAtKey))])
  {
    var vs := [Get(d, StrKey(IdKey)), Get(d, StrKey(UserGuidKey)), Get(d, StrKey(UserDomainGuidKey)), Get(d, StrKey(SuppressionTypeKey)), Get(d, StrKey(RecipientTypeKey)), Get(d, StrKey(RecipientKey)), Get(d, StrKey(DescriptionKey)), Get(d, StrKey(SourceKey)), Get(d, StrKey(TagsKey)), Get(d, StrKey(CreatedAtKey)), Get(d, StrKey(ModifiedAtKey))];
    forall i | 0 <= i < |Keys| ensures vs[i] == Get(d, StrKey(Keys[i])) {
      assert i == 0 || i == 1 || i == 2 || i == 3 || i == 4 || i == 5 || i == 6 || i == 7 || i == 8 || i == 9 || i == 10;
    }
  }

  /** `new Suppression($v)` for a decoded value: a TypeError unless `$v` is an array of well-typed values. */
  method Build(v: Value) returns (r: Result<Suppression, Raised>)
    ensures r.Success? <==> Accepts(v)
    ensures r.Success? ==> fresh(r.value) && r.value.ToArray() == Project(v.entries, Keys)
    ensures r.Failure? ==> r.error == TypeError
  {
    if Accepts(v) {
      var c := new Suppression(v.entries);
      r := Success(c);
    } else {
      r := Failure(TypeError);
    }
  }

  /** `c` is what `new Suppression($v)` makes of an accepted value. */
  predicate BuiltFrom(c: Suppression, v: Value)
    reads c
  {
    Accepts(v) && c.ToArray() == Project(v.entries, Keys)
  }

  /** `foreach ($items as $d) { $list[] = new Suppression($d); }`: the first item the constructor
      refuses raises a TypeError; otherwise one new object per item, in order. */
  method BuildAll(items: seq<Value>) returns (r: Result<seq<Suppression>, Raised>)
    ensures r.Success? <==> forall i :: 0 <= i < |items| ==> Accepts(items[i])
    ensures r.Success? ==> |r.value| == |items|
    ensures r.Success? ==> forall i :: 0 <= i < |items| ==>
              fresh(r.value[i]) && r.value[i].ToArray() == Project(items[i].entries, Keys)
    ensures r.Failure? ==> r.error == TypeError
  {
    var built: seq<Suppression> := [];
    var i := 0;
    while i < |items|
      invariant 0 <= i <= |items| && |built| == i
      invariant forall j :: 0 <= j < i ==> fresh(built[j]) && BuiltFrom(built[j], items[j])
    {
      var c := Build(items[i]);
      if c.Failure? {
        return Failure(c.error);
      }
      built := built + [c.value];
      i := i + 1;
    }
    return Success(built);
  }

  /** The type predicates are mutually exclusive, and one of them holds exactly when the type is
      one of the three suppression lists; likewise for the two recipient kinds. */
  lemma TypePredicatesExclusive(s: Suppression)
    ensures !(s.IsUnsubscribe() && s.IsBounce()) && !(s.IsUnsubscribe() && s.IsWhitelist())
    ensures !(s.IsBounce() && s.IsWhitelist())
    ensures s.IsUnsubscribe() || s.IsBounce() || s.IsWhitelist() <==>
            s.suppressionType.Some? && s.suppressionType.value in ["unsubscribe", "bounce", "whitelist"]
    ensures !(s.IsEmailType() && s.IsDomainType())
  {
  }

}
