/** An SMTP credential of a domain: its user name, verification and deletion
    state, timestamps, and the password, which the server returns only when it
    creates the credential or resets its password. */
module CredentialModel {
  import opened PhpValues
  import opened PhpRuntime
  import opened Exceptions

  const IdKey := "id"
  const UserSmtpGuidKey := "user_smtp_guid"
  const UsernameKey := "username"
  const IsVerifiedKey := "is_verified"
  const StatusKey := "status"
  const IsDeletedKey := "is_deleted"
  const CreatedAtKey := "created_at"
  const ModifiedAtKey := "modified_at"
  const DeletedAtKey := "deleted_at"
  const LastPasswordChangedKey := "last_password_changed"
  const PasswordKey := "password"
  const StrengthInfoKey := "strength_info"
  const RemoteSyncedKey := "remote_synced"

  /** The keys of `toArray()`, in order; the constructor reads the same keys. */
  const Keys: seq<string> := [IdKey, UserSmtpGuidKey, UsernameKey, IsVerifiedKey, StatusKey, IsDeletedKey, CreatedAtKey, ModifiedAtKey, DeletedAtKey, LastPasswordChangedKey, PasswordKey, StrengthInfoKey, RemoteSyncedKey]

  /** Can `new Credential($d)` store every value in its typed property? */
  predicate WellTyped(d: PhpArray) {
    && IsIntOrNull(Get(d, StrKey(IdKey)))
    && IsStrOrNull(Get(d, StrKey(UserSmtpGuidKey)))
    && IsStrOrNull(Get(d, StrKey(UsernameKey)))
    && IsBoolOrNull(Get(d, StrKey(IsVerifiedKey)))
    && IsBoolOrNull(Get(d, StrKey(StatusKey)))
    && IsBoolOrNull(Get(d, StrKey(IsDeletedKey)))
    && IsIntOrNull(Get(d, StrKey(CreatedAtKey)))
    && IsIntOrNull(Get(d, StrKey(ModifiedAtKey)))
    && IsIntOrNull(Get(d, StrKey(DeletedAtKey)))
    && IsIntOrNull(Get(d, StrKey(LastPasswordChangedKey)))
    && IsStrOrNull(Get(d, StrKey(PasswordKey)))
    && IsArrOrNull(Get(d, StrKey(StrengthInfoKey)))
    && IsBoolOrNull(Get(d, StrKey(RemoteSyncedKey)))
  }

  /** `new Credential($v)` succeeds: `$v` is an array of well-typed values. */
  predicate Accepts(v: Value) {
    v.Arr? && WellTyped(v.entries)
  }

  class Credential {
    var id: Option<int>
    var userSmtpGuid: Option<string>
    var username: Option<string>
    var isVerified: Option<bool>
    var status: Option<bool>
    var isDeleted: Option<bool>
    var createdAt: Option<int>
    var modifiedAt: Option<int>
    var deletedAt: Option<int>
    var lastPasswordChanged: Option<int>
    var password: Option<string>
    var strengthInfo: Option<PhpArray>
    var remoteSynced: Option<bool>

    /** `new Credential($data)`: each property from its key, null when the key is absent. */
    constructor (data: PhpArray)
      requires WellTyped(data)
      ensures id == AsInt(Get(data, StrKey(IdKey)))
      ensures userSmtpGuid == AsStr(Get(data, StrKey(UserSmtpGuidKey)))
      ensures username == AsStr(Get(data, StrKey(UsernameKey)))
      ensures isVerified == AsBool(Get(data, StrKey(IsVerifiedKey)))
      ensures status == AsBool(Get(data, StrKey(StatusKey)))
      ensures isDeleted == AsBool(Get(data, StrKey(IsDeletedKey)))
      ensures createdAt == AsInt(Get(data, StrKey(CreatedAtKey)))
      ensures modifiedAt == AsInt(Get(data, StrKey(ModifiedAtKey)))
      ensures deletedAt == AsInt(Get(data, StrKey(DeletedAtKey)))
      ensures lastPasswordChanged == AsInt(Get(data, StrKey(LastPasswordChangedKey)))
      ensures password == AsStr(Get(data, StrKey(PasswordKey)))
      ensures strengthInfo == AsArr(Get(data, StrKey(StrengthInfoKey)))
      ensures remoteSynced == AsBool(Get(data, StrKey(RemoteSyncedKey)))
      ensures ToArray() == Project(data, Keys)
    {
      id := AsInt(Get(data, StrKey(IdKey)));
      userSmtpGuid := AsStr(Get(data, StrKey(UserSmtpGuidKey)));
      username := AsStr(Get(data, StrKey(UsernameKey)));
      isVerified := AsBool(Get(data, StrKey(IsVerifiedKey)));
      status := AsBool(Get(data, StrKey(StatusKey)));
      isDeleted := AsBool(Get(data, StrKey(IsDeletedKey)));
      createdAt := AsInt(Get(data, StrKey(CreatedAtKey)));
      modifiedAt := AsInt(Get(data, StrKey(ModifiedAtKey)));
      deletedAt := AsInt(Get(data, StrKey(DeletedAtKey)));
      lastPasswordChanged := AsInt(Get(data, StrKey(LastPasswordChangedKey)));
      password := AsStr(Get(data, StrKey(PasswordKey)));
      strengthInfo := AsArr(Get(data, StrKey(StrengthInfoKey)));
      remoteSynced := AsBool(Get(data, StrKey(RemoteSyncedKey)));
      ProjectOnKeys(data);
      StoredValue(Get(data, StrKey(IdKey)));
      StoredValue(Get(data, StrKey(UserSmtpGuidKey)));
      StoredValue(Get(data, StrKey(UsernameKey)));
      StoredValue(Get(data, StrKey(IsVerifiedKey)));
      StoredValue(Get(data, StrKey(StatusKey)));
      StoredValue(Get(data, StrKey(IsDeletedKey)));
      StoredValue(Get(data, StrKey(CreatedAtKey)));
      StoredValue(Get(data, StrKey(ModifiedAtKey)));
      StoredValue(Get(data, StrKey(DeletedAtKey)));
      StoredValue(Get(data, StrKey(LastPasswordChangedKey)));
      StoredValue(Get(data, StrKey(PasswordKey)));
      StoredValue(Get(data, StrKey(StrengthInfoKey)));
      StoredValue(Get(data, StrKey(RemoteSyncedKey)));
    }

    method SetId(id: Option<int>) returns (self: Credential)
      modifies this`id
      ensures self == this && this.id == id
    {
      this.id := id;
      self := this;
    }

    method SetUserSmtpGuid(userSmtpGuid: Option<string>) returns (self: Credential)
      modifies this`userSmtpGuid
      ensures self == this && this.userSmtpGuid == userSmtpGuid
    {
      this.userSmtpGuid := userSmtpGuid;
      self := this;
    }

    method SetUsername(username: Option<string>) returns (self: Credential)
      modifies this`username
      ensures self == this && this.username == username
    {
      this.username := username;
      self := this;
    }

    method SetCreatedAt(createdAt: Option<int>) returns (self: Credential)
      modifies this`createdAt
      ensures self == this && this.createdAt == createdAt
    {
      this.createdAt := createdAt;
      self := this;
    }

    method SetModifiedAt(modifiedAt: Option<int>) returns (self: Credential)
      modifies this`modifiedAt
      ensures self == this && this.modifiedAt == modifiedAt
    {
      this.modifiedAt := modifiedAt;
      self := this;
    }

    method SetIsVerified(isVerified: Option<bool>) returns (self: Credential)
      modifies this`isVerified
      ensures self == this && this.isVerified == isVerified
    {
      this.isVerified := isVerified;
      self := this;
    }

    method SetVerified(verified: Option<bool>) returns (self: Credential)
      modifies this`isVerified
      ensures self == this && this.isVerified == verified
    {
      this.isVerified := verified;
      self := this;
    }

    method SetStatus(status: Option<bool>) returns (self: Credential)
      modifies this`status
      ensures self == this && this.status == status
    {
      this.status := status;
      self := this;
    }

    method SetIsDeleted(isDeleted: Option<bool>) returns (self: Credential)
      modifies this`isDeleted
      ensures self == this && this.isDeleted == isDeleted
    {
      this.isDeleted := isDeleted;
      self := this;
    }

    method SetDeletedAt(deletedAt: Option<int>) returns (self: Credential)
      modifies this`deletedAt
      ensures self == this && this.deletedAt == deletedAt
    {
      this.deletedAt := deletedAt;
      self := this;
    }

    method SetLastPasswordChanged(lastPasswordChanged: Option<int>) returns (self: Credential)
      modifies this`lastPasswordChanged
      ensures self == this && this.lastPasswordChanged == lastPasswordChanged
    {
      this.lastPasswordChanged := lastPasswordChanged;
      self := this;
    }

    method SetPassword(password: Option<string>) returns (self: Credential)
      modifies this`password
      ensures self == this && this.password == password
    {
      this.password := password;
      self := this;
    }

    method SetStrengthInfo(strengthInfo: Option<PhpArray>) returns (self: Credential)
      modifies this`strengthInfo
      ensures self == this && this.strengthInfo == strengthInfo
    {
      this.strengthInfo := strengthInfo;
      self := this;
    }

    method SetRemoteSynced(remoteSynced: Option<bool>) returns (self: Credential)
      modifies this`remoteSynced
      ensures self == this && this.remoteSynced == remoteSynced
    {
      this.remoteSynced := remoteSynced;
      self := this;
    }

    /** The creation time as a DateTime in UTC; null when the timestamp is null or 0. */
    function CreatedAtDateTime(): (r: Option<DateTime>)
      reads this
      ensures r.Some? <==> createdAt.Some? && createdAt.value != 0
      ensures r.Some? ==> r.value.timestamp == createdAt.value && r.value.offset == 0
    {
      TimestampDateTime(createdAt)
    }

    /** The last modification time as a DateTime in UTC; null when the timestamp is null or 0. */
    function ModifiedAtDateTime(): (r: Option<DateTime>)
      reads this
      ensures r.Some? <==> modifiedAt.Some? && modifiedAt.value != 0
      ensures r.Some? ==> r.value.timestamp == modifiedAt.value && r.value.offset == 0
    {
      TimestampDateTime(modifiedAt)
    }

    /** The deletion time as a DateTime in UTC; null when the timestamp is null or 0. */
    function DeletedAtDateTime(): (r: Option<DateTime>)
      reads this
      ensures r.Some? <==> deletedAt.Some? && deletedAt.value != 0
      ensures r.Some? ==> r.value.timestamp == deletedAt.value && r.value.offset == 0
    {
      TimestampDateTime(deletedAt)
    }

    /** The last password change as a DateTime in UTC; null when the timestamp is null or 0. */
    function LastPasswordChangedDateTime(): (r: Option<DateTime>)
      reads this
      ensures r.Some? <==> lastPasswordChanged.Some? && lastPasswordChanged.value != 0
      ensures r.Some? ==> r.value.timestamp == lastPasswordChanged.value && r.value.offset == 0
    {
      TimestampDateTime(lastPasswordChanged)
    }


    /** `toArray()`: every property under its key, in the order of `Keys`. */
    function ToArray(): (r: PhpArray)
      reads this
      ensures KeysOf(r) == StrKeys(Keys)
    {
      Record(Keys, [OfInt(id), OfStr(userSmtpGuid), OfStr(username), OfBool(isVerified), OfBool(status), OfBool(isDeleted), OfInt(createdAt), OfInt(modifiedAt), OfInt(deletedAt), OfInt(lastPasswordChanged), OfStr(password), OfArr(strengthInfo), OfBool(remoteSynced)])
    }

    function JsonSerialize(): (r: PhpArray)
      reads this
      ensures r == ToArray()
    {
      ToArray()
    }
  }

  /** No key of `toArray()` is repeated. */
  lemma KeysDistinct()
    ensures Distinct(Keys)
  {
  }

  /** toArray keeps every property: the array is accepted by the constructor, reading it
      back gives the properties again, and rebuilding from it gives the same array. */
  lemma ToArrayReadsBack(c: Credential)
    ensures var r := c.ToArray();
            && WellTyped(r)
            && AsInt(Get(r, StrKey(IdKey))) == c.id
            && AsStr(Get(r, StrKey(UserSmtpGuidKey))) == c.userSmtpGuid
            && AsStr(Get(r, StrKey(UsernameKey))) == c.username
            && AsBool(Get(r, StrKey(IsVerifiedKey))) == c.isVerified
            && AsBool(Get(r, StrKey(StatusKey))) == c.status
            && AsBool(Get(r, StrKey(IsDeletedKey))) == c.isDeleted
            && AsInt(Get(r, StrKey(CreatedAtKey))) == c.createdAt
            && AsInt(Get(r, StrKey(ModifiedAtKey))) == c.modifiedAt
            && AsInt(Get(r, StrKey(DeletedAtKey))) == c.deletedAt
            && AsInt(Get(r, StrKey(LastPasswordChangedKey))) == c.lastPasswordChanged
            && AsStr(Get(r, StrKey(PasswordKey))) == c.password
            && AsArr(Get(r, StrKey(StrengthInfoKey))) == c.strengthInfo
            && AsBool(Get(r, StrKey(RemoteSyncedKey))) == c.remoteSynced
            && Project(r, Keys) == r
  {
    assert Keys[0] == IdKey && Keys[1] == UserSmtpGuidKey && Keys[2] == UsernameKey && Keys[3] == IsVerifiedKey && Keys[4] == StatusKey && Keys[5] == IsDeletedKey && Keys[6] == CreatedAtKey && Keys[7] == ModifiedAtKey && Keys[8] == DeletedAtKey && Keys[9] == LastPasswordChangedKey && Keys[10] == PasswordKey && Keys[11] == StrengthInfoKey && Keys[12] == RemoteSyncedKey;
    KeysDistinct();
    RecordGet(Keys, [OfInt(c.id), OfStr(c.userSmtpGuid), OfStr(c.username), OfBool(c.isVerified), OfBool(c.status), OfBool(c.isDeleted), OfInt(c.createdAt), OfInt(c.modifiedAt), OfInt(c.deletedAt), OfInt(c.lastPasswordChanged), OfStr(c.password), OfArr(c.strengthInfo), OfBool(c.remoteSynced)]);
    ProjectIdentity(c.ToArray(), Keys);
  }

  /** The projection of any array on `Keys` is the record of its values under those keys. */
  lemma ProjectOnKeys(d: PhpArray)
    ensures Project(d, Keys) == Record(Keys, [Get(d, StrKey(IdKey)), Get(d, StrKey(UserSmtpGuidKey)), Get(d, StrKey(UsernameKey)), Get(d, StrKey(IsVerifiedKey)), Get(d, StrKey(StatusKey)), Get(d, StrKey(IsDeletedKey)), Get(d, StrKey(CreatedAtKey)), Get(d, StrKey(ModifiedAtKey)), Get(d, StrKey(DeletedAtKey)), Get(d, StrKey(LastPasswordChangedKey)), Get(d, StrKey(PasswordKey)), Get(d, StrKey(StrengthInfoKey)), Get(d, StrKey(RemoteSyncedKey))])
  {
    var vs := [Get(d, StrKey(IdKey)), Get(d, StrKey(UserSmtpGuidKey)), Get(d, StrKey(UsernameKey)), Get(d, StrKey(IsVerifiedKey)), Get(d, StrKey(StatusKey)), Get(d, StrKey(IsDeletedKey)), Get(d, StrKey(CreatedAtKey)), Get(d, StrKey(ModifiedAtKey)), Get(d, StrKey(DeletedAtKey)), Get(d, StrKey(LastPasswordChangedKey)), Get(d, StrKey(PasswordKey)), Get(d, StrKey(StrengthInfoKey)), Get(d, StrKey(RemoteSyncedKey))];
    forall i | 0 <= i < |Keys| ensures vs[i] == Get(d, StrKey(Keys[i])) {
      assert i == 0 || i == 1 || i == 2 || i == 3 || i == 4 || i == 5 || i == 6 || i == 7 || i == 8 || i == 9 || i == 10 || i == 11 || i == 12;
    }
  }

  /** `new Credential($v)` for a decoded value: a TypeError unless `$v` is an array of well-typed values. */
  method Build(v: Value) returns (r: Result<Credential, Raised>)
    ensures r.Success? <==> Accepts(v)
    ensures r.Success? ==> fresh(r.value) && r.value.ToArray() == Project(v.entries, Keys)
    ensures r.Failure? ==> r.error == TypeError
  {
    if Accepts(v) {
      var c := new Credential(v.entries);
      r := Success(c);
    } else {
      r := Failure(TypeError);
    }
  }

  /** `c` is what `new Credential($v)` makes of an accepted value. */
  predicate BuiltFrom(c: Credential, v: Value)
    reads c
  {
    Accepts(v) && c.ToArray() == Project(v.entries, Keys)
  }

  /** `foreach ($items as $d) { $list[] = new Credential($d); }`: the first item the constructor
      refuses raises a TypeError; otherwise one new object per item, in order. */
  method BuildAll(items: seq<Value>) returns (r: Result<seq<Credential>, Raised>)
    ensures r.Success? <==> forall i :: 0 <= i < |items| ==> Accepts(items[i])
    ensures r.Success? ==> |r.value| == |items|
    ensures r.Success? ==> forall i :: 0 <= i < |items| ==>
              fresh(r.value[i]) && r.value[i].ToArray() == Project(items[i].entries, Keys)
    ensures r.Failure? ==> r.error == TypeError
  {
    var built: seq<Credential> := [];
    var i := 0;
    while i < |items|
      invariant 0 <= i <= |items| && |built| == i
      invariant forall j :: 0 <= j < i ==> fresh(built[j]) && BuiltFrom(built[j], items[j])
    {
      var c := Build(items[i]);
      if c.Failure? {
        return Failure(c.error);
      }
      built := built + [c.value];
      i := i + 1;
    }
    return Success(built);
  }


}
