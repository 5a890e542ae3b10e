/**
 * Incoming replies (lib/pay_call_sms/incoming_message_parser.rb): the
 * gateway's webhook parameters for a message a phone sent to one of the
 * gateway's numbers become an `IncomingReply` with country-coded phones and
 * the time it was received.
 */
module IncomingMessages {
  import opened Wrappers
  import opened Calendar
  import opened Support

  /** The parser's options: only `time_zone` is read. */
  datatype IncomingMessageParser = IncomingMessageParser(timeZone: Option<string>)

  /** A `received_at` value: a string to parse, or any other object, which is replaced by the current time. */
  datatype Supplied = SuppliedText(text: string) | SuppliedObject

  /** The values hash `parse_reply_values_hash` receives (nil where a key is missing). */
  datatype ReplyValues = ReplyValues(
    messageId: Option<string>,
    phone: Option<string>,
    text: Option<string>,
    replyToPhone: Option<string>,
    receivedAt: Option<Supplied>)

  /** The OpenStruct `parse_reply_values_hash` returns. */
  datatype IncomingReply = IncomingReply(
    phone: string,
    replyToPhone: string,
    text: string,
    messageId: string,
    receivedAt: ZonedTime)

  /** The keys `parse_reply_values_hash` requires, in the order it checks them. */
  const VALUE_KEYS: seq<string> := ["message_id", "phone", "text", "reply_to_phone"]

  /** `values[key]` for the string-valued keys of the hash, nil for any other key. */
  function Value(values: ReplyValues, key: string): Option<string>
  {
    if key == "message_id" then values.messageId
    else if key == "phone" then values.phone
    else if key == "text" then values.text
    else if key == "reply_to_phone" then values.replyToPhone
    else None
  }

  /** The values under the required keys, in the order they are checked. */
  function RequiredValues(values: ReplyValues): (r: seq<Option<string>>)
    ensures |r| == |VALUE_KEYS|
    ensures r[0] == values.messageId && r[1] == values.phone
    ensures r[2] == values.text && r[3] == values.replyToPhone
  {
    [values.messageId, values.phone, values.text, values.replyToPhone]
  }

  /** Each required value is the hash's value under the key at the same position, the key an error names. */
  lemma RequiredValuesFollowKeys(values: ReplyValues)
    ensures forall i :: 0 <= i < |VALUE_KEYS| ==> RequiredValues(values)[i] == Value(values, VALUE_KEYS[i])
  {
  }

  /**
   * What `parse_reply_values_hash` makes of a values hash: an ArgumentError
   * naming the first blank required key; otherwise both phones in the
   * utility's form (the sender's first), and a received time that is the
   * string given read as `%Y-%m-%d %H:%M:%S` in the selected zone (an
   * ArgumentError carrying the text when that fails) or, when no string is
   * given, the current time.  Text and message id are kept as given.
   */
  function ReplyFromValues(parser: IncomingMessageParser, values: ReplyValues, w: World): (r: Result<IncomingReply>)
    ensures FirstBlank(RequiredValues(values)).Some? ==>
      r == Err(ArgumentError(MissingValue(VALUE_KEYS[FirstBlank(RequiredValues(values)).value])))
    ensures FirstBlank(RequiredValues(values)).None? && w.ensureCountryCode(values.phone.value).None? ==>
      r == Err(PhoneUtilityError(values.phone.value))
    ensures FirstBlank(RequiredValues(values)).None? && w.ensureCountryCode(values.phone.value).Some? &&
            w.ensureCountryCode(values.replyToPhone.value).None? ==>
      r == Err(PhoneUtilityError(values.replyToPhone.value))
    ensures FirstBlank(RequiredValues(values)).None? && w.ensureCountryCode(values.phone.value).Some? &&
            w.ensureCountryCode(values.replyToPhone.value).Some? &&
            values.receivedAt.Some? && values.receivedAt.value.SuppliedText? &&
            ParseInZone(YearFirst, values.receivedAt.value.text, parser.timeZone, w).None? ==>
      r == Err(ArgumentError(UnparseableReceivedAt(values.receivedAt.value.text)))
    ensures r.Ok? <==>
      && FirstBlank(RequiredValues(values)).None?
      && w.ensureCountryCode(values.phone.value).Some?
      && w.ensureCountryCode(values.replyToPhone.value).Some?
      && (values.receivedAt.Some? && values.receivedAt.value.SuppliedText? ==>
            ParseInZone(YearFirst, values.receivedAt.value.text, parser.timeZone, w).Some?)
    ensures r.Ok? ==>
      && values.phone.Some? && w.ensureCountryCode(values.phone.value) == Some(r.value.phone)
      && values.replyToPhone.Some? && w.ensureCountryCode(values.replyToPhone.value) == Some(r.value.replyToPhone)
      && values.text == Some(r.value.text)
      && values.messageId == Some(r.value.messageId)
    ensures r.Ok? && !(values.receivedAt.Some? && values.receivedAt.value.SuppliedText?) ==>
      r.value.receivedAt == w.now
    ensures r.Ok? && values.receivedAt.Some? && values.receivedAt.value.SuppliedText? ==>
      && r.value.receivedAt.zone == SelectZone(parser.timeZone, w.ambientZone)
      && ValidDateTime(r.value.receivedAt.local)
      && Strftime(r.value.receivedAt.local, YearFirst) == values.receivedAt.value.text
  {
    match FirstBlank(RequiredValues(values))
    case Some(i) => Err(ArgumentError(MissingValue(VALUE_KEYS[i])))
    case None =>
      match (w.ensureCountryCode(values.phone.value), w.ensureCountryCode(values.replyToPhone.value))
      case (None, _) => Err(PhoneUtilityError(values.phone.value))
      case (Some(_), None) => Err(PhoneUtilityError(values.replyToPhone.value))
      case (Some(phone), Some(replyToPhone)) =>
        match values.receivedAt
        case Some(SuppliedText(raw)) =>
          (match ParseInZone(YearFirst, raw, parser.timeZone, w)
           case None => Err(ArgumentError(UnparseableReceivedAt(raw)))
           case Some(receivedAt) =>
             Ok(IncomingReply(phone, replyToPhone, values.text.value, values.messageId.value, receivedAt)))
        case _ =>
          Ok(IncomingReply(phone, replyToPhone, values.text.value, values.messageId.value, w.now))
  }

  /** IncomingMessageParser#parse_reply_values_hash: a guard loop, then the fields are replaced one by one. */
  method ParseReplyValuesHash(parser: IncomingMessageParser, values: ReplyValues, w: World)
    returns (r: Result<IncomingReply>)
    ensures r == ReplyFromValues(parser, values, w)
  {
    var missing := FindBlank(RequiredValues(values));
    if missing.Some? {
      return Err(ArgumentError(MissingValue(VALUE_KEYS[missing.value])));
    }
    var phone := w.ensureCountryCode(values.phone.value);
    if phone.None? {
      return Err(PhoneUtilityError(values.phone.value));
    }
    var replyToPhone := w.ensureCountryCode(values.replyToPhone.value);
    if replyToPhone.None? {
      return Err(PhoneUtilityError(values.replyToPhone.value));
    }
    var receivedAt := w.now;
    if values.receivedAt.Some? && values.receivedAt.value.SuppliedText? {
      var parsed := ParseInZone(YearFirst, values.receivedAt.value.text, parser.timeZone, w);
      if parsed.None? {
        return Err(ArgumentError(UnparseableReceivedAt(values.receivedAt.value.text)));
      }
      receivedAt := parsed.value;
    }
    r := Ok(IncomingReply(phone.value, replyToPhone.value, values.text.value, values.messageId.value, receivedAt));
  }

  /** The webhook parameters `from_http_push_params` requires, in the order it checks them. */
  const PUSH_KEYS: seq<string> := ["msgId", "sender", "recipient", "content"]

  /** The values hash `from_http_push_params` builds: no received_at is passed on. */
  function ValuesOfParams(params: map<string, string>): ReplyValues
  {
    ReplyValues(Lookup(params, "msgId"), Lookup(params, "sender"), Lookup(params, "content"),
                Lookup(params, "recipient"), None)
  }

  /**
   * What `from_http_push_params` returns: an ArgumentError naming the first
   * blank required parameter; otherwise the reply parsed from the renamed
   * values.  A webhook reply is stamped with the current time and cannot
   * fail on its time, only on its phones.
   */
  function ReplyFromPushParams(parser: IncomingMessageParser, params: map<string, string>, w: World)
    : (r: Result<IncomingReply>)
    ensures FirstBlank(Lookups(params, PUSH_KEYS)).Some? ==>
      r == Err(ArgumentError(MissingParameter(PUSH_KEYS[FirstBlank(Lookups(params, PUSH_KEYS)).value])))
    ensures FirstBlank(Lookups(params, PUSH_KEYS)).None? ==> r == ReplyFromValues(parser, ValuesOfParams(params), w)
    ensures r.Ok? <==>
      && FirstBlank(Lookups(params, PUSH_KEYS)).None?
      && "sender" in params && "recipient" in params
      && w.ensureCountryCode(params["sender"]).Some?
      && w.ensureCountryCode(params["recipient"]).Some?
    ensures r.Ok? ==>
      && w.ensureCountryCode(params["sender"]) == Some(r.value.phone)
      && w.ensureCountryCode(params["recipient"]) == Some(r.value.replyToPhone)
      && params["content"] == r.value.text
      && params["msgId"] == r.value.messageId
      && r.value.receivedAt == w.now
  {
    match FirstBlank(Lookups(params, PUSH_KEYS))
    case Some(i) => Err(ArgumentError(MissingParameter(PUSH_KEYS[i])))
    case None =>
      assert FirstBlank(RequiredValues(ValuesOfParams(params))).None? by {
        assert forall j :: 0 <= j < |PUSH_KEYS| ==> Present(Lookups(params, PUSH_KEYS)[j]);
        assert Present(Lookups(params, PUSH_KEYS)[0]) && Present(Lookups(params, PUSH_KEYS)[1]);
        assert Present(Lookups(params, PUSH_KEYS)[2]) && Present(Lookups(params, PUSH_KEYS)[3]);
      }
      ReplyFromValues(parser, ValuesOfParams(params), w)
  }

  /** IncomingMessageParser#from_http_push_params: a guard loop over the parameters, then the values are parsed. */
  method FromHttpPushParams(parser: IncomingMessageParser, params: map<string, string>, w: World)
    returns (r: Result<IncomingReply>)
    ensures r == ReplyFromPushParams(parser, params, w)
  {
    var missing := FindBlank(Lookups(params, PUSH_KEYS));
    if missing.Some? {
      return Err(ArgumentError(MissingParameter(PUSH_KEYS[missing.value])));
    }
    r := ParseReplyValuesHash(parser, ValuesOfParams(params), w);
  }

  /** Any required parameter left out is an ArgumentError about that missing parameter or an earlier one. */
  lemma MissingParameterIsRejected(parser: IncomingMessageParser, params: map<string, string>, w: World,
                                   name: string)
    requires name in PUSH_KEYS && name !in params
    ensures ReplyFromPushParams(parser, params, w).Err?
    ensures ReplyFromPushParams(parser, params, w).error.ArgumentError?
    ensures ReplyFromPushParams(parser, params, w).error.reason.MissingParameter?
  {
    var k :| 0 <= k < |PUSH_KEYS| && PUSH_KEYS[k] == name;
    assert Blank(Lookups(params, PUSH_KEYS)[k]);
  }

  /** The parameters of the parser's test. */
  const TEST_PARAMS: map<string, string> :=
    map["msgId" := "a1234", "sender" := "0541234567", "recipient" := "972529992090", "content" := "kak dila"]

  /** The reply of the parser's test: the fields as sent, the sender country-coded, received now. */
  lemma ReplyExample(parser: IncomingMessageParser, w: World)
    requires w.ensureCountryCode("0541234567") == Some("972541234567")
    requires w.ensureCountryCode("972529992090") == Some("972529992090")
    ensures ReplyFromPushParams(parser, TEST_PARAMS, w) ==
            Ok(IncomingReply("972541234567", "972529992090", "kak dila", "a1234", w.now))
  {
    assert !IsSpace("a1234"[0]) && !IsSpace("0541234567"[0]) && !IsSpace("972529992090"[0]);
    assert !IsSpace("kak dila"[0]);
    assert Lookups(TEST_PARAMS, PUSH_KEYS) == [Some("a1234"), Some("0541234567"), Some("972529992090"), Some("kak dila")];
  }
}
