/** The messages façade: the pre-flight checks of a plain and of a template message, the
    choice between a JSON and a multipart body, and the bulk and attachment-option variants. */
module Messages {
  import opened PhpValues
  import opened PhpRuntime
  import opened Exceptions
  import opened Client

  const FromKey := "from"
  const ToKey := "to"
  const SubjectKey := "subject"
  const TextKey := "text"
  const ReplyToKey := "reply_to"
  const FromNameKey := "from_name"
  const TemplateGuidKey := "template_guid"
  const AttachmentOptionsKey := "attachment_options"

  /** The fields a plain message must have, in the order they are checked. */
  const RequiredFields: seq<string> := [FromKey, ToKey, SubjectKey, TextKey]

  const FromNameMessage := "Invalid from_name: must be a string"
  const BulkArrayMessage := "Bulk email requires 'to' field to be an array of email addresses"
  const BulkLimitMessage := "Maximum 1000 recipients allowed per request"

  /** The most recipients a bulk message may have. */
  const MaxBulkRecipients := 1000

  function MissingMessage(field: string): string {
    "Missing required field: " + field
  }

  /** The value under `key`, null when absent. */
  function At(data: PhpArray, key: string): Value {
    Get(data, StrKey(key))
  }

  /** `isValidEmail(string $email)` holds: a string that `filter_var` accepts as an address. */
  predicate IsEmailValue(lib: Library, v: Value) {
    v.Str? && lib.isEmail(v.s)
  }

  /** What `isValidEmail` makes of a value it refuses: a TypeError for a non-string, which the
      `string` parameter does not accept under strict types, else the message naming the address. */
  function EmailFailure(v: Value, field: string): Raised {
    if v.Str? then Reject("Invalid " + field + " email address: " + v.s) else TypeError
  }

  /** One address check. */
  function EmailCheck(lib: Library, v: Value, field: string): (c: Check)
    ensures c.Pass? <==> IsEmailValue(lib, v)
    ensures !c.Pass? ==> Outcome(c) == Some(EmailFailure(v, field))
  {
    match v
    case Str(s) => Require(lib.isEmail(s), "Invalid " + field + " email address: " + s)
    case _ => Crash
  }

  /** Run `c`; when it passes, go on with `rest`. */
  function Then(c: Check, rest: Option<Raised>): (r: Option<Raised>)
    ensures c.Pass? ==> r == rest
    ensures !c.Pass? ==> r == Outcome(c) && r.Some?
  {
    if c.Pass? then rest else Outcome(c)
  }

  /** The first of `fields` whose value is empty (PHP `empty`). */
  function FirstMissing(data: PhpArray, fields: seq<string>): (r: Option<nat>)
    ensures r.None? <==> forall i :: 0 <= i < |fields| ==> !Falsy(At(data, fields[i]))
    ensures r.Some? ==> r.value < |fields| && Falsy(At(data, fields[r.value])) &&
                        forall i :: 0 <= i < r.value ==> !Falsy(At(data, fields[i]))
  {
    if fields == [] then None
    else if Falsy(At(data, fields[0])) then Some(0)
    else match FirstMissing(data, fields[1..])
      case None => None
      case Some(i) => Some(i + 1)
  }

  /** The addresses the `to` check visits: every value of an array, or the single value. */
  function Recipients(to: Value): seq<Value> {
    if to.Arr? then Items(to) else [to]
  }

  /** The position of the first recipient `isValidEmail` refuses. */
  function FirstBadRecipient(lib: Library, rs: seq<Value>): (r: Option<nat>)
    ensures r.None? <==> forall i :: 0 <= i < |rs| ==> IsEmailValue(lib, rs[i])
    ensures r.Some? ==> r.value < |rs| && !IsEmailValue(lib, rs[r.value]) &&
                        forall i :: 0 <= i < r.value ==> IsEmailValue(lib, rs[i])
  {
    if rs == [] then None
    else if !IsEmailValue(lib, rs[0]) then Some(0)
    else match FirstBadRecipient(lib, rs[1..])
      case None => None
      case Some(i) => Some(i + 1)
  }

  /** The `to` check: the first refused address throws. */
  function RecipientsError(lib: Library, to: Value): (r: Option<Raised>)
    ensures r.None? <==> forall i :: 0 <= i < |Recipients(to)| ==> IsEmailValue(lib, Recipients(to)[i])
    ensures forall i :: 0 <= i < |Recipients(to)| && !IsEmailValue(lib, Recipients(to)[i]) &&
                        (forall j :: 0 <= j < i ==> IsEmailValue(lib, Recipients(to)[j])) ==>
                          r == Some(EmailFailure(Recipients(to)[i], "to"))
  {
    var rs := Recipients(to);
    match FirstBadRecipient(lib, rs)
    case None => None
    case Some(i) => Some(EmailFailure(rs[i], "to"))
  }

  /** An optional address: checked only when not empty. */
  predicate OptionalEmailOk(lib: Library, v: Value) {
    Falsy(v) || IsEmailValue(lib, v)
  }

  /** A `from_name` that is given must be a string. */
  predicate FromNameOk(v: Value) {
    Falsy(v) || v.Str?
  }

  /** The checks after the required fields that plain and template messages share:
      reply-to, then the sender's name. */
  function TrailingError(lib: Library, data: PhpArray): (r: Option<Raised>)
    ensures r.None? <==> OptionalEmailOk(lib, At(data, ReplyToKey)) && FromNameOk(At(data, FromNameKey))
    ensures !OptionalEmailOk(lib, At(data, ReplyToKey)) ==> r == Some(EmailFailure(At(data, ReplyToKey), "reply_to"))
    ensures OptionalEmailOk(lib, At(data, ReplyToKey)) && !FromNameOk(At(data, FromNameKey)) ==>
              r == Some(Reject(FromNameMessage))
  {
    var replyTo := At(data, ReplyToKey);
    Then(if Falsy(replyTo) then Pass else EmailCheck(lib, replyTo, "reply_to"),
         Then(Require(FromNameOk(At(data, FromNameKey)), FromNameMessage), None))
  }

  /** `validateEmailData`: the required fields in order, the sender, every recipient, the
      reply-to address when given, and the sender's name when given. */
  function EmailDataError(lib: Library, data: PhpArray): (r: Option<Raised>)
    ensures r.None? <==>
              && FirstMissing(data, RequiredFields).None?
              && IsEmailValue(lib, At(data, FromKey))
              && RecipientsError(lib, At(data, ToKey)).None?
              && TrailingError(lib, data).None?
    ensures FirstMissing(data, RequiredFields).Some? ==>
              r == Some(Reject(MissingMessage(RequiredFields[FirstMissing(data, RequiredFields).value])))
    ensures FirstMissing(data, RequiredFields).None? && !IsEmailValue(lib, At(data, FromKey)) ==>
              r == Some(EmailFailure(At(data, FromKey), "from"))
    ensures FirstMissing(data, RequiredFields).None? && IsEmailValue(lib, At(data, FromKey)) ==>
              r == if RecipientsError(lib, At(data, ToKey)).Some? then RecipientsError(lib, At(data, ToKey))
                   else TrailingError(lib, data)
  {
    match FirstMissing(data, RequiredFields)
    case Some(i) => Some(Reject(MissingMessage(RequiredFields[i])))
    case None =>
      Then(EmailCheck(lib, At(data, FromKey), "from"),
           if RecipientsError(lib, At(data, ToKey)).Some? then RecipientsError(lib, At(data, ToKey))
           else TrailingError(lib, data))
  }

  /** `validateTemplateData`: the template and the recipients must be given, every recipient
      must be valid, and a sender, a reply-to address and a sender's name are checked when given. */
  function TemplateDataError(lib: Library, data: PhpArray): (r: Option<Raised>)
    ensures r.None? <==>
              && !Falsy(At(data, TemplateGuidKey)) && !Falsy(At(data, ToKey))
              && RecipientsError(lib, At(data, ToKey)).None?
              && OptionalEmailOk(lib, At(data, FromKey))
              && TrailingError(lib, data).None?
    ensures Falsy(At(data, TemplateGuidKey)) ==> r == Some(Reject(MissingMessage(TemplateGuidKey)))
    ensures !Falsy(At(data, TemplateGuidKey)) && Falsy(At(data, ToKey)) ==> r == Some(Reject(MissingMessage(ToKey)))
    ensures !Falsy(At(data, TemplateGuidKey)) && !Falsy(At(data, ToKey)) && RecipientsError(lib, At(data, ToKey)).Some? ==>
              r == RecipientsError(lib, At(data, ToKey))
    ensures !Falsy(At(data, TemplateGuidKey)) && !Falsy(At(data, ToKey)) && RecipientsError(lib, At(data, ToKey)).None? &&
            !OptionalEmailOk(lib, At(data, FromKey)) ==>
              r == Some(EmailFailure(At(data, FromKey), "from"))
  {
    var from := At(data, FromKey);
    Then(Require(!Falsy(At(data, TemplateGuidKey)), MissingMessage(TemplateGuidKey)),
      Then(Require(!Falsy(At(data, ToKey)), MissingMessage(ToKey)),
        if RecipientsError(lib, At(data, ToKey)).Some? then RecipientsError(lib, At(data, ToKey))
        else Then(if Falsy(from) then Pass else EmailCheck(lib, from, "from"), TrailingError(lib, data))))
  }

  /** `sendBulkMessage`'s own checks, made before the message checks: `to` must be an array
      (a missing `to` reaches `count(null)`, a TypeError) of at most 1000 entries. */
  function BulkError(data: PhpArray): (r: Option<Raised>)
    ensures r.None? <==> At(data, ToKey).Arr? && |At(data, ToKey).entries| <= MaxBulkRecipients
    ensures At(data, ToKey) != Null && !At(data, ToKey).Arr? ==> r == Some(Reject(BulkArrayMessage))
    ensures At(data, ToKey) == Null ==> r == Some(TypeError)
    ensures At(data, ToKey).Arr? && |At(data, ToKey).entries| > MaxBulkRecipients ==> r == Some(Reject(BulkLimitMessage))
  {
    var to := At(data, ToKey);
    if to != Null && !to.Arr? then Some(Reject(BulkArrayMessage))
    else if to == Null then Some(TypeError)
    else if |to.entries| > MaxBulkRecipients then Some(Reject(BulkLimitMessage))
    else None
  }

  /** `sendMessageWithAttachmentOptions`' data: with non-empty options, `attachment_options` is
      set to their JSON text (false where json_encode fails); every other key is kept. */
  function AttachmentData(lib: Library, data: PhpArray, options: PhpArray): (r: PhpArray)
    ensures options == [] ==> r == data
    ensures options != [] ==>
              Lookup(r, StrKey(AttachmentOptionsKey)) ==
                Some(match lib.jsonEncode(Arr(options)) case Some(t) => Str(t) case None => Bool(false))
    ensures forall k :: k != StrKey(AttachmentOptionsKey) ==> Lookup(r, k) == Lookup(data, k)
  {
    if options == [] then data
    else
      var encoded := match lib.jsonEncode(Arr(options)) case Some(t) => Str(t) case None => Bool(false);
      PhpValues.Put(data, StrKey(AttachmentOptionsKey), encoded)
  }

  function MessageEndpoint(domain: string): string {
    DomainsPath + domain + "/message"
  }

  function TemplateEndpoint(domain: string): string {
    DomainsPath + domain + "/message/template"
  }

  /** The client call a validated message becomes: a multipart POST when there are files,
      a JSON POST otherwise. */
  twostate predicate Dispatched(client: SmtpClient, endpoint: string, data: PhpArray, files: PhpArray,
                                new r: Result<PhpArray, Raised>)
    reads client
  {
    if files == [] then
      client.sent == old(client.sent) + [client.Prepared("POST", endpoint, Options(Json(data), [], false))] &&
      r == client.Answer(old(client.sent), client.sent[|client.sent| - 1])
    else
      var parts := MultipartParts(client.lib, data, files);
      if parts.Failure? then
        client.sent == old(client.sent) && r == Failure(parts.error)
      else
        client.sent == old(client.sent) + [client.Prepared("POST", endpoint, Options(Multipart(parts.value), [], false))] &&
        r == client.Answer(old(client.sent), client.sent[|client.sent| - 1])
  }

  class MessagesApi {
    const client: SmtpClient

    constructor (client: SmtpClient)
      ensures this.client == client
    {
      this.client := client;
    }

    /** `sendMessage`: validate, then send as JSON or, with files, as multipart. */
    method SendMessage(domain: string, data: PhpArray, files: PhpArray := []) returns (r: Result<PhpArray, Raised>)
      modifies client`sent
      ensures EmailDataError(client.lib, data).Some? ==>
                r == Failure(EmailDataError(client.lib, data).value) && client.sent == old(client.sent)
      ensures EmailDataError(client.lib, data).None? ==> Dispatched(client, MessageEndpoint(domain), data, files, r)
    {
      var error := EmailDataError(client.lib, data);
      if error.Some? {
        return Failure(error.value);
      }
      r := Send(MessageEndpoint(domain), data, files);
    }

    /** `sendTemplateMessage`: validate as a template message, then send like `sendMessage`. */
    method SendTemplateMessage(domain: string, data: PhpArray, files: PhpArray := []) returns (r: Result<PhpArray, Raised>)
      modifies client`sent
      ensures TemplateDataError(client.lib, data).Some? ==>
                r == Failure(TemplateDataError(client.lib, data).value) && client.sent == old(client.sent)
      ensures TemplateDataError(client.lib, data).None? ==> Dispatched(client, TemplateEndpoint(domain), data, files, r)
    {
      var error := TemplateDataError(client.lib, data);
      if error.Some? {
        return Failure(error.value);
      }
      r := Send(TemplateEndpoint(domain), data, files);
    }

    /** The dispatch both senders share. */
    method Send(endpoint: string, data: PhpArray, files: PhpArray) returns (r: Result<PhpArray, Raised>)
      modifies client`sent
      ensures Dispatched(client, endpoint, data, files, r)
    {
      if files != [] {
        r := client.PostMultipart(endpoint, data, files);
      } else {
        r := client.Post(endpoint, data);
      }
    }

    /** `sendMessageWithAttachmentOptions`: `sendMessage` with the options added to the data. */
    method SendMessageWithAttachmentOptions(domain: string, data: PhpArray, files: PhpArray, options: PhpArray := [])
      returns (r: Result<PhpArray, Raised>)
      modifies client`sent
      ensures var sentData := AttachmentData(client.lib, data, options);
              && (EmailDataError(client.lib, sentData).Some? ==>
                    r == Failure(EmailDataError(client.lib, sentData).value) && client.sent == old(client.sent))
              && (EmailDataError(client.lib, sentData).None? ==> Dispatched(client, MessageEndpoint(domain), sentData, files, r))
    {
      r := SendMessage(domain, AttachmentData(client.lib, data, options), files);
    }

    /** `sendBulkMessage`: the bulk checks, then `sendMessage`. */
    method SendBulkMessage(domain: string, data: PhpArray, files: PhpArray := []) returns (r: Result<PhpArray, Raised>)
      modifies client`sent
      ensures BulkError(data).Some? ==> r == Failure(BulkError(data).value) && client.sent == old(client.sent)
      ensures BulkError(data).None? && EmailDataError(client.lib, data).Some? ==>
                r == Failure(EmailDataError(client.lib, data).value) && client.sent == old(client.sent)
      ensures BulkError(data).None? && EmailDataError(client.lib, data).None? ==>
                Dispatched(client, MessageEndpoint(domain), data, files, r)
    {
      var error := BulkError(data);
      if error.Some? {
        return Failure(error.value);
      }
      r := SendMessage(domain, data, files);
    }
  }

  // ---------------------------------------------------------------------
  // Lemmas

  /** A single recipient and a one-element list of it pass or fail the `to` check alike. */
  lemma SingleRecipientAsList(lib: Library, s: string)
    ensures RecipientsError(lib, Str(s)) == RecipientsError(lib, Arr([(IntKey(0), Str(s))]))
  {
    assert Recipients(Arr([(IntKey(0), Str(s))])) == [Str(s)];
  }

  /** Data that passes the plain-message checks and names a template passes the template checks:
      every check of the template path is one of the plain path's, or weaker. */
  lemma PlainValidImpliesTemplateValid(lib: Library, data: PhpArray)
    requires EmailDataError(lib, data).None? && !Falsy(At(data, TemplateGuidKey))
    ensures TemplateDataError(lib, data).None?
  {
    assert !Falsy(At(data, RequiredFields[1]));
  }

  /** The attachment options never change what the message checks decide. */
  lemma AttachmentOptionsKeepValidation(lib: Library, data: PhpArray, options: PhpArray)
    ensures EmailDataError(lib, AttachmentData(lib, data, options)) == EmailDataError(lib, data)
  {
    var d := AttachmentData(lib, data, options);
    assert forall k :: k in [FromKey, ToKey, SubjectKey, TextKey, ReplyToKey, FromNameKey] ==> At(d, k) == At(data, k);
    assert forall i :: 0 <= i < |RequiredFields| ==> At(d, RequiredFields[i]) == At(data, RequiredFields[i]);
    FirstMissingSameValues(d, data, RequiredFields);
  }

  /** The first missing field depends only on the values under those fields. */
  lemma {:induction false} FirstMissingSameValues(a: PhpArray, b: PhpArray, fields: seq<string>)
    requires forall i :: 0 <= i < |fields| ==> At(a, fields[i]) == At(b, fields[i])
    ensures FirstMissing(a, fields) == FirstMissing(b, fields)
  {
    if fields != [] {
      FirstMissingSameValues(a, b, fields[1..]);
    }
  }
}
