/**
 * The outbound side (lib/pay_call_sms/sms_sender.rb): creating a sender from
 * its options, checking a send request, building the form parameters of the
 * gateway POST and reading the gateway's answer.  The POST itself is not
 * modelled: `SendSms` hands back the request it would make and receives the
 * response as an argument, together with the JSON decoder and the UUID.
 */
module SmsSending {
  import opened Wrappers
  import opened Support

  const DEFAULT_API_URL := "https://api.multisend.co.il/MultiSendAPI/sendsms"

  /** The options a sender cannot be created without, in the order they are checked. */
  const REQUIRED_OPTIONS: seq<string> := ["api_url", "username", "password"]

  /** A sender holds its options hash, the default api_url merged under the given options. */
  datatype SmsSender = SmsSender(options: map<string, Option<string>>)

  /** An option's value; nil when the key is absent or given as nil. */
  function Setting(options: map<string, Option<string>>, key: string): Option<string>
  {
    if key in options then options[key] else None
  }

  /**
   * `{api_url: DEFAULT_API_URL}.merge(options)`: every given key wins, even
   * one given as nil, and api_url defaults only when it is not given at all.
   */
  function MergedOptions(options: map<string, Option<string>>): (merged: map<string, Option<string>>)
    ensures merged.Keys == options.Keys + {"api_url"}
    ensures forall k :: k in options ==> merged[k] == options[k]
    ensures "api_url" !in options ==> merged["api_url"] == Some(DEFAULT_API_URL)
  {
    map["api_url" := Some(DEFAULT_API_URL)] + options
  }

  /** The required options' values, in the order `initialize` checks them. */
  function RequiredSettings(options: map<string, Option<string>>): (values: seq<Option<string>>)
    ensures |values| == |REQUIRED_OPTIONS|
    ensures forall i :: 0 <= i < |values| ==> values[i] == Setting(options, REQUIRED_OPTIONS[i])
  {
    [Setting(options, "api_url"), Setting(options, "username"), Setting(options, "password")]
  }

  /**
   * SmsSender.new: a sender exists exactly when api_url, username and
   * password are all non-blank after the merge; otherwise the first blank one
   * is named in an ArgumentError.
   */
  method New(options: map<string, Option<string>>) returns (r: Result<SmsSender>)
    ensures r.Ok? <==> forall k :: k in REQUIRED_OPTIONS ==> Present(Setting(MergedOptions(options), k))
    ensures r.Ok? ==> r.value.options == MergedOptions(options)
    ensures r.Err? ==>
      exists i :: (&& 0 <= i < |REQUIRED_OPTIONS|
                   && r.error == ArgumentError(MissingOption(REQUIRED_OPTIONS[i]))
                   && Blank(Setting(MergedOptions(options), REQUIRED_OPTIONS[i]))
                   && forall j :: 0 <= j < i ==> Present(Setting(MergedOptions(options), REQUIRED_OPTIONS[j])))
  {
    var merged := MergedOptions(options);
    var missing := FindBlank(RequiredSettings(merged));
    if missing.Some? {
      return Err(ArgumentError(MissingOption(REQUIRED_OPTIONS[missing.value])));
    }
    return Ok(SmsSender(merged));
  }

  /** SmsSender#api_url. */
  function ApiUrl(sender: SmsSender): Option<string>
  {
    Setting(sender.options, "api_url")
  }

  /**
   * A sender built from options reports the api_url it was given, nil
   * included, and the Multisend URL when none was given.
   */
  lemma ApiUrlOfMergedOptions(options: map<string, Option<string>>)
    ensures "api_url" in options ==> ApiUrl(SmsSender(MergedOptions(options))) == options["api_url"]
    ensures "api_url" !in options ==> ApiUrl(SmsSender(MergedOptions(options))) == Some(DEFAULT_API_URL)
  {
  }

  /** The options hash of `send_sms`. */
  datatype SendOptions = SendOptions(
    senderName: Option<string>,
    senderNumber: Option<string>,
    deliveryNotificationUrl: Option<string>)

  /** The `phones` argument: nil, a single phone string, or an array of them. */
  datatype Phones = NilPhones | OnePhone(phone: string) | PhoneArray(items: seq<string>)

  predicate PhonesBlank(phones: Phones)
  {
    match phones
    case NilPhones => true
    case OnePhone(p) => BlankString(p)
    case PhoneArray(items) => items == []
  }

  /** `phones = [phones] unless phones.is_a?(Array)`. */
  function PhoneList(phones: Phones): (list: seq<string>)
    requires !phones.NilPhones?
    ensures phones.OnePhone? ==> list == [phones.phone]
    ensures phones.PhoneArray? ==> list == phones.items
  {
    match phones
    case OnePhone(p) => [p]
    case PhoneArray(items) => items
  }

  /** The position of the first phone the cellular check rejects. */
  function FirstInvalidPhone(phones: seq<string>, valid: string -> bool): (r: Option<nat>)
    ensures r.Some? ==> r.value < |phones| && !valid(phones[r.value])
    ensures r.Some? ==> forall j :: 0 <= j < r.value ==> valid(phones[j])
    ensures r.None? ==> forall j :: 0 <= j < |phones| ==> valid(phones[j])
  {
    if phones == [] then None
    else if !valid(phones[0]) then Some(0)
    else
      match FirstInvalidPhone(phones[1..], valid)
      case None => None
      case Some(j) => Some(j + 1)
  }

  /**
   * The guards of `send_sms`, in their order: the reason of the first one
   * that raises, or None when the request may be sent.
   */
  function SendValidation(text: Option<string>, phones: Phones, options: SendOptions, w: World): (r: Option<Reason>)
    ensures r == Some(BlankText) <==> Blank(text)
    ensures r == Some(NoPhones) <==> Present(text) && PhonesBlank(phones)
    ensures r == Some(NoSender) <==>
      Present(text) && !PhonesBlank(phones) && Blank(options.senderName) && Blank(options.senderNumber)
    ensures (r.Some? && r.value.InvalidSenderNumber?) <==>
      && Present(text) && !PhonesBlank(phones)
      && Present(options.senderNumber) && !w.validSenderNumber(options.senderNumber.value)
    ensures r.Some? && r.value.InvalidSenderNumber? ==> r.value.number == options.senderNumber.value
    ensures r == Some(InvalidSenderName) <==>
      && Present(text) && !PhonesBlank(phones)
      && (Present(options.senderNumber) ==> w.validSenderNumber(options.senderNumber.value))
      && Present(options.senderName) && !w.validSenderName(options.senderName.value)
    ensures (r.Some? && r.value.InvalidPhone?) <==>
      && Present(text) && !PhonesBlank(phones)
      && (Present(options.senderName) || Present(options.senderNumber))
      && (Present(options.senderNumber) ==> w.validSenderNumber(options.senderNumber.value))
      && (Present(options.senderName) ==> w.validSenderName(options.senderName.value))
      && FirstInvalidPhone(PhoneList(phones), w.validCellularPhone).Some?
    ensures r.Some? && r.value.InvalidPhone? ==>
      && !PhonesBlank(phones)
      && FirstInvalidPhone(PhoneList(phones), w.validCellularPhone).Some?
      && r.value.phone == PhoneList(phones)[FirstInvalidPhone(PhoneList(phones), w.validCellularPhone).value]
    ensures r.None? <==>
      && Present(text) && !PhonesBlank(phones)
      && (Present(options.senderName) || Present(options.senderNumber))
      && (Present(options.senderNumber) ==> w.validSenderNumber(options.senderNumber.value))
      && (Present(options.senderName) ==> w.validSenderName(options.senderName.value))
      && forall p :: p in PhoneList(phones) ==> w.validCellularPhone(p)
  {
    if Blank(text) then Some(BlankText)
    else if PhonesBlank(phones) then Some(NoPhones)
    else if Blank(options.senderName) && Blank(options.senderNumber) then Some(NoSender)
    else if Present(options.senderNumber) && !w.validSenderNumber(options.senderNumber.value)
    then Some(InvalidSenderNumber(options.senderNumber.value))
    else if Present(options.senderName) && !w.validSenderName(options.senderName.value)
    then Some(InvalidSenderName)
    else
      var list := PhoneList(phones);
      match FirstInvalidPhone(list, w.validCellularPhone)
      case Some(i) => Some(InvalidPhone(list[i]))
      case None => None
  }

  /** `items.join(sep)`. */
  function JoinWith(items: seq<string>, sep: char): string
  {
    if items == [] then ""
    else if |items| == 1 then items[0]
    else items[0] + [sep] + JoinWith(items[1..], sep)
  }

  /** How the gateway reads a `sep`-separated list: the pieces between separators. */
  function SplitOn(s: string, sep: char): (parts: seq<string>)
    ensures |parts| >= 1
  {
    if s == [] then [[]]
    else
      var rest := SplitOn(s[1..], sep);
      if s[0] == sep then [[]] + rest else [[s[0]] + rest[0]] + rest[1..]
  }

  lemma {:induction false} SplitWithoutSeparator(s: string, sep: char)
    requires sep !in s
    ensures SplitOn(s, sep) == [s]
    decreases |s|
  {
    if s != [] {
      SplitWithoutSeparator(s[1..], sep);
      assert [s[0]] + s[1..] == s;
    }
  }

  lemma {:induction false} SplitAtFirstSeparator(a: string, b: string, sep: char)
    requires sep !in a
    ensures SplitOn(a + [sep] + b, sep) == [a] + SplitOn(b, sep)
    decreases |a|
  {
    if a == [] {
      assert a + [sep] + b == [sep] + b;
      assert ([sep] + b)[1..] == b;
    } else {
      SplitAtFirstSeparator(a[1..], b, sep);
      assert (a + [sep] + b)[1..] == a[1..] + [sep] + b;
      assert [a[0]] + a[1..] == a;
    }
  }

  /**
   * The recipient field keeps every phone: splitting the comma-joined list
   * at the commas gives the phones back, as long as no phone holds a comma.
   */
  lemma {:induction false} SplitOfJoin(items: seq<string>, sep: char)
    requires items != []
    requires forall i :: 0 <= i < |items| ==> sep !in items[i]
    ensures SplitOn(JoinWith(items, sep), sep) == items
    decreases |items|
  {
    if |items| == 1 {
      SplitWithoutSeparator(items[0], sep);
    } else {
      SplitOfJoin(items[1..], sep);
      SplitAtFirstSeparator(items[0], JoinWith(items[1..], sep), sep);
      assert [items[0]] + items[1..] == items;
    }
  }

  /** The joined list holds no character that neither a phone nor the separator holds. */
  lemma {:induction false} JoinAddsOnlySeparators(items: seq<string>, sep: char, c: char)
    requires c != sep
    requires forall i :: 0 <= i < |items| ==> c !in items[i]
    ensures c !in JoinWith(items, sep)
    decreases |items|
  {
    if |items| > 1 {
      JoinAddsOnlySeparators(items[1..], sep, c);
    }
  }

  /**
   * The form parameters `build_send_sms_params` produces: the credentials,
   * text and message id verbatim, the phones joined with commas, the
   * notification URL only when one is given, and `from` set to the sender
   * name when one is given and to the sender number (possibly nil) otherwise.
   */
  function SendSmsParams(sender: SmsSender, messageText: string, phones: seq<string>, messageId: string,
                         options: SendOptions): (params: map<string, Option<string>>)
    ensures params.Keys == {"user", "password", "recipient", "message", "customermessageid", "from"} +
                           (if Present(options.deliveryNotificationUrl) then {"deliverynotificationURL"} else {})
    ensures params["user"] == Setting(sender.options, "username")
    ensures params["password"] == Setting(sender.options, "password")
    ensures params["recipient"] == Some(JoinWith(phones, ','))
    ensures params["message"] == Some(messageText)
    ensures params["customermessageid"] == Some(messageId)
    ensures Present(options.deliveryNotificationUrl) ==>
              params["deliverynotificationURL"] == options.deliveryNotificationUrl
    ensures Present(options.senderName) ==> params["from"] == options.senderName
    ensures Blank(options.senderName) ==> params["from"] == options.senderNumber
  {
    var base := map[
      "user" := Setting(sender.options, "username"),
      "password" := Setting(sender.options, "password"),
      "recipient" := Some(JoinWith(phones, ',')),
      "message" := Some(messageText),
      "customermessageid" := Some(messageId),
      "from" := if Present(options.senderName) then options.senderName else options.senderNumber];
    if Present(options.deliveryNotificationUrl)
    then base["deliverynotificationURL" := options.deliveryNotificationUrl]
    else base
  }

  /** SmsSender#build_send_sms_params: the hash is built, then `from` is assigned twice. */
  method BuildSendSmsParams(sender: SmsSender, messageText: string, phones: seq<string>, messageId: string,
                            options: SendOptions) returns (result: map<string, Option<string>>)
    ensures result == SendSmsParams(sender, messageText, phones, messageId, options)
  {
    result := map[
      "user" := Setting(sender.options, "username"),
      "password" := Setting(sender.options, "password"),
      "recipient" := Some(JoinWith(phones, ',')),
      "message" := Some(messageText),
      "customermessageid" := Some(messageId)];
    if Present(options.deliveryNotificationUrl) {
      result := result["deliverynotificationURL" := options.deliveryNotificationUrl];
    }
    result := result["from" := options.senderNumber];
    if Present(options.senderName) {
      result := result["from" := options.senderName];
    }
  }

  /** `http_response.parsed_response`: a hash HTTParty already decoded, or the raw text. */
  datatype Body = ParsedBody(fields: map<string, Json>) | TextBody(text: string)

  datatype HttpResponse = HttpResponse(code: int, body: Body)

  /** The POST `send_sms` makes: the api_url, the form body and the Accept header. */
  datatype PostRequest = PostRequest(url: Option<string>, form: map<string, Option<string>>, accept: string)

  datatype SendResult = SendResult(messageId: string)

  /** The decoded body: the hash as given, or the text run through the JSON decoder. */
  function DecodedBody(body: Body, decode: string -> Option<map<string, Json>>): Option<map<string, Json>>
  {
    match body
    case ParsedBody(fields) => Some(fields)
    case TextBody(text) => decode(text)
  }

  /** `json['success'] == true`: the key holds the JSON literal true, nothing else counts. */
  predicate Succeeded(json: map<string, Json>)
  {
    Lookup(json, "success") == Some(JBool(true))
  }

  /**
   * What `send_sms` makes of the gateway's answer: an error for a status
   * other than 200, a gateway error for a body that is not JSON or does not
   * report success, and otherwise the message id generated before the POST.
   */
  function InterpretResponse(response: HttpResponse, decode: string -> Option<map<string, Json>>,
                             messageId: string): (r: Result<SendResult>)
    ensures response.code != 200 ==> r == Err(NonOkStatus(response.code))
    ensures response.code == 200 && response.body.TextBody? && decode(response.body.text).None? ==>
              r == Err(GatewayError(NotJson(response.body.text)))
    ensures response.code == 200 && DecodedBody(response.body, decode).Some? &&
            !Succeeded(DecodedBody(response.body, decode).value) ==>
              r == Err(GatewayError(Unsuccessful(DecodedBody(response.body, decode).value)))
    ensures r.Ok? <==> response.code == 200 && DecodedBody(response.body, decode).Some? &&
                       Succeeded(DecodedBody(response.body, decode).value)
    ensures r.Ok? ==> r.value.messageId == messageId
  {
    if response.code != 200 then Err(NonOkStatus(response.code))
    else
      match DecodedBody(response.body, decode)
      case None => Err(GatewayError(NotJson(response.body.text)))
      case Some(json) =>
        if Succeeded(json) then Ok(SendResult(messageId)) else Err(GatewayError(Unsuccessful(json)))
  }

  const ACCEPT_JSON := "application/json"

  /**
   * SmsSender#send_sms.  `uuid` stands for the UUID generated at line 44,
   * `response` for what the POST returns, `decode` for JSON.parse.  The
   * request is made (`post` is Some) exactly when every guard passes, so no
   * rejected request reaches the gateway, and then the answer is read as
   * `InterpretResponse` says.
   */
  method SendSms(sender: SmsSender, messageText: Option<string>, phones: Phones, options: SendOptions, w: World,
                 uuid: string, response: HttpResponse, decode: string -> Option<map<string, Json>>)
    returns (post: Option<PostRequest>, r: Result<SendResult>)
    ensures post.None? <==> SendValidation(messageText, phones, options, w).Some?
    ensures post.None? ==> r == Err(ArgumentError(SendValidation(messageText, phones, options, w).value))
    ensures post.Some? ==>
      && messageText.Some? && !phones.NilPhones?
      && post.value == PostRequest(ApiUrl(sender),
                                   SendSmsParams(sender, messageText.value, PhoneList(phones), uuid, options),
                                   ACCEPT_JSON)
      && r == InterpretResponse(response, decode, uuid)
  {
    post := None;
    if Blank(messageText) {
      return None, Err(ArgumentError(BlankText));
    }
    if PhonesBlank(phones) {
      return None, Err(ArgumentError(NoPhones));
    }
    if Blank(options.senderName) && Blank(options.senderNumber) {
      return None, Err(ArgumentError(NoSender));
    }
    if Present(options.senderNumber) && !w.validSenderNumber(options.senderNumber.value) {
      return None, Err(ArgumentError(InvalidSenderNumber(options.senderNumber.value)));
    }
    if Present(options.senderName) && !w.validSenderName(options.senderName.value) {
      return None, Err(ArgumentError(InvalidSenderName));
    }

    var list := PhoneList(phones);
    var i := 0;
    while i < |list|
      invariant 0 <= i <= |list|
      invariant forall j :: 0 <= j < i ==> w.validCellularPhone(list[j])
    {
      if !w.validCellularPhone(list[i]) {
        return None, Err(ArgumentError(InvalidPhone(list[i])));
      }
      i := i + 1;
    }

    var messageId := uuid;
    var bodyParams := BuildSendSmsParams(sender, messageText.value, list, messageId, options);
    post := Some(PostRequest(ApiUrl(sender), bodyParams, ACCEPT_JSON));
    if response.code != 200 {
      return post, Err(NonOkStatus(response.code));
    }
    var json: map<string, Json>;
    match response.body {
      case ParsedBody(fields) =>
        json := fields;
      case TextBody(text) =>
        var decoded := decode(text);
        if decoded.None? {
          return post, Err(GatewayError(NotJson(text)));
        }
        json := decoded.value;
    }
    if Lookup(json, "success") == Some(JBool(true)) {
      r := Ok(SendResult(messageId));
    } else {
      r := Err(GatewayError(Unsuccessful(json)));
    }
  }

  /**
   * The request of the test for a non-cellular phone carries no sender
   * option, so it is the sender guard, checked before the phones, that
   * rejects it.
   */
  lemma PhoneWithoutSenderFailsOnSender(w: World)
    ensures SendValidation(Some("my message text"), OnePhone("0541234567"), SendOptions(None, None, None), w)
            == Some(NoSender)
    ensures SendValidation(Some("my message text"), OnePhone("541234567"), SendOptions(None, None, None), w)
            == Some(NoSender)
  {
    assert !IsSpace("my message text"[0]);
    assert !IsSpace("0541234567"[0]);
    assert !IsSpace("541234567"[0]);
  }

  /** The test request `send_sms('asdf', phone, sender_name: '1234')` passes every guard the utility accepts. */
  lemma NamedSenderRequestIsSent(w: World)
    requires w.validSenderName("1234") && w.validCellularPhone("972541234567")
    ensures SendValidation(Some("asdf"), OnePhone("972541234567"), SendOptions(Some("1234"), None, None), w).None?
  {
    assert !IsSpace("asdf"[0]);
    assert !IsSpace("972541234567"[0]);
    assert !IsSpace("1234"[0]);
  }
}
