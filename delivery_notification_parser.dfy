/**
 * Delivery notifications (lib/pay_call_sms/delivery_notification_parser.rb):
 * the gateway's webhook parameters become a `DeliveryNotification` with a
 * country-coded phone, a normalised delivery status and the time the status
 * was reached, read in the parser's time zone.
 */
module DeliveryNotifications {
  import opened Wrappers
  import opened Calendar
  import opened Support

  datatype DeliveryStatus = InProgress | Delivered | Failed | Unknown

  /** The parser's options: only `time_zone` is read. */
  datatype DeliveryNotificationParser = DeliveryNotificationParser(timeZone: Option<string>)

  /** The OpenStruct `parse_notification_values_hash` returns. */
  datatype DeliveryNotification = DeliveryNotification(
    gatewayStatus: string,
    deliveryStatus: DeliveryStatus,
    phone: string,
    messageId: string,
    occurredAt: ZonedTime,
    reasonNotDelivered: Option<string>)

  const STATUS_TABLE: map<string, DeliveryStatus> :=
    map["inprogress" := InProgress, "pending" := InProgress, "delivered" := Delivered,
        "failed" := Failed, "kosher" := Failed]

  /**
   * The gateway status a value of the table is looked up under.  The lookup
   * compares whole strings: `with_indifferent_access` lets a string find a
   * symbol key but does not fold case, so "Delivered" is not "delivered".
   * Every other status is unknown, never an error.
   */
  function GatewayDeliveryStatusToDeliveryStatus(gatewayStatus: string): (status: DeliveryStatus)
    ensures status == InProgress <==> gatewayStatus == "inprogress" || gatewayStatus == "pending"
    ensures status == Delivered <==> gatewayStatus == "delivered"
    ensures status == Failed <==> gatewayStatus == "failed" || gatewayStatus == "kosher"
    ensures status == Unknown <==> gatewayStatus !in ["inprogress", "pending", "delivered", "failed", "kosher"]
  {
    if gatewayStatus in STATUS_TABLE then STATUS_TABLE[gatewayStatus] else Unknown
  }

  /** The caller's webhook parameter hash, which `normalize_http_push_params` changes in place. */
  class PushParams {
    var entries: map<string, string>

    constructor (entries: map<string, string>)
      ensures this.entries == entries
    {
      this.entries := entries;
    }
  }

  const KOSHER := "kosher"
  const KOSHER_REASON := "kosher_number"

  predicate IsKosher(params: map<string, string>)
  {
    Lookup(params, "Status") == Some(KOSHER)
  }

  /**
   * The parameters after `normalize_http_push_params`: for the status
   * "kosher", exactly, the reason becomes "kosher_number" and the date-time
   * becomes the current time, whatever was given; nothing else changes, and
   * any other status leaves the parameters as they were.  `nowStamp` is
   * `Time.now` written with the pattern at line 70.
   */
  function NormalizedParams(params: map<string, string>, nowStamp: string): (normalized: map<string, string>)
    ensures IsKosher(params) ==>
      && normalized.Keys == params.Keys + {"ReasonNotDelivered", "dateTime"}
      && normalized["ReasonNotDelivered"] == KOSHER_REASON
      && normalized["dateTime"] == nowStamp
      && forall k :: k in params && k != "ReasonNotDelivered" && k != "dateTime" ==> normalized[k] == params[k]
    ensures !IsKosher(params) ==> normalized == params
  {
    if IsKosher(params)
    then params["ReasonNotDelivered" := KOSHER_REASON]["dateTime" := nowStamp]
    else params
  }

  /** Normalising twice with the same clock reading changes nothing more. */
  lemma NormalizingTwiceIsNormalizingOnce(params: map<string, string>, nowStamp: string)
    ensures NormalizedParams(NormalizedParams(params, nowStamp), nowStamp) == NormalizedParams(params, nowStamp)
  {
    if IsKosher(params) {
      assert IsKosher(NormalizedParams(params, nowStamp));
    }
  }

  /** DeliveryNotificationParser.normalize_http_push_params. */
  method NormalizeHttpPushParams(params: PushParams, nowStamp: string)
    modifies params
    ensures params.entries == NormalizedParams(old(params.entries), nowStamp)
  {
    if Lookup(params.entries, "Status") == Some(KOSHER) {
      params.entries := params.entries["ReasonNotDelivered" := KOSHER_REASON];
      params.entries := params.entries["dateTime" := nowStamp];
    }
  }

  /** The values hash `parse_notification_values_hash` receives (nil where a key is missing). */
  datatype NotificationValues = NotificationValues(
    gatewayStatus: Option<string>,
    phone: Option<string>,
    messageId: Option<string>,
    occurredAt: Option<string>,
    reasonNotDelivered: Option<string>)

  /** The keys `parse_notification_values_hash` requires, in the order it checks them. */
  const VALUE_KEYS: seq<string> := ["gateway_status", "phone", "message_id", "occurred_at"]

  /** `values[key]`: the value the hash holds under a key, nil for any other key. */
  function Value(values: NotificationValues, key: string): Option<string>
  {
    if key == "gateway_status" then values.gatewayStatus
    else if key == "phone" then values.phone
    else if key == "message_id" then values.messageId
    else if key == "occurred_at" then values.occurredAt
    else if key == "reason_not_delivered" then values.reasonNotDelivered
    else None
  }

  /** The values under the required keys, in the order they are checked. */
  function RequiredValues(values: NotificationValues): (r: seq<Option<string>>)
    ensures |r| == |VALUE_KEYS|
    ensures r[0] == values.gatewayStatus && r[1] == values.phone
    ensures r[2] == values.messageId && r[3] == values.occurredAt
  {
    [values.gatewayStatus, values.phone, values.messageId, values.occurredAt]
  }

  /** Each required value is the hash's value under the key at the same position, the key an error names. */
  lemma RequiredValuesFollowKeys(values: NotificationValues)
    ensures forall i :: 0 <= i < |VALUE_KEYS| ==> RequiredValues(values)[i] == Value(values, VALUE_KEYS[i])
  {
  }

  /**
   * What `parse_notification_values_hash` makes of a values hash: an
   * ArgumentError naming the first blank required key; otherwise the
   * utility's form of the phone, the status looked up in the table, the
   * occurrence time read as `%d-%m-%Y %H:%M:%S` in the selected zone (an
   * ArgumentError carrying the raw text when that fails), and the other
   * fields as given.
   */
  function NotificationFromValues(parser: DeliveryNotificationParser, values: NotificationValues, w: World)
    : (r: Result<DeliveryNotification>)
    ensures FirstBlank(RequiredValues(values)).Some? ==>
      r == Err(ArgumentError(MissingValue(VALUE_KEYS[FirstBlank(RequiredValues(values)).value])))
    ensures FirstBlank(RequiredValues(values)).None? && w.ensureCountryCode(values.phone.value).None? ==>
      r == Err(PhoneUtilityError(values.phone.value))
    ensures FirstBlank(RequiredValues(values)).None? && w.ensureCountryCode(values.phone.value).Some? &&
            ParseInZone(DayFirst, values.occurredAt.value, parser.timeZone, w).None? ==>
      r == Err(ArgumentError(UnparseableOccurredAt(values.occurredAt.value)))
    ensures r.Ok? <==>
      && FirstBlank(RequiredValues(values)).None?
      && w.ensureCountryCode(values.phone.value).Some?
      && ParseInZone(DayFirst, values.occurredAt.value, parser.timeZone, w).Some?
    ensures r.Ok? ==>
      && values.gatewayStatus == Some(r.value.gatewayStatus)
      && r.value.deliveryStatus == GatewayDeliveryStatusToDeliveryStatus(r.value.gatewayStatus)
      && values.phone.Some? && w.ensureCountryCode(values.phone.value) == Some(r.value.phone)
      && values.messageId == Some(r.value.messageId)
      && r.value.reasonNotDelivered == values.reasonNotDelivered
      && r.value.occurredAt.zone == SelectZone(parser.timeZone, w.ambientZone)
      && values.occurredAt.Some? && ValidDateTime(r.value.occurredAt.local)
      && Strftime(r.value.occurredAt.local, DayFirst) == values.occurredAt.value
  {
    match FirstBlank(RequiredValues(values))
    case Some(i) => Err(ArgumentError(MissingValue(VALUE_KEYS[i])))
    case None =>
      match w.ensureCountryCode(values.phone.value)
      case None => Err(PhoneUtilityError(values.phone.value))
      case Some(phone) =>
        var status := GatewayDeliveryStatusToDeliveryStatus(values.gatewayStatus.value);
        match ParseInZone(DayFirst, values.occurredAt.value, parser.timeZone, w)
        case None => Err(ArgumentError(UnparseableOccurredAt(values.occurredAt.value)))
        case Some(occurredAt) =>
          Ok(DeliveryNotification(values.gatewayStatus.value, status, phone, values.messageId.value,
                                  occurredAt, values.reasonNotDelivered))
  }

  /** DeliveryNotificationParser#parse_notification_values_hash: a guard loop, then the fields are replaced one by one. */
  method ParseNotificationValuesHash(parser: DeliveryNotificationParser, values: NotificationValues, w: World)
    returns (r: Result<DeliveryNotification>)
    ensures r == NotificationFromValues(parser, values, w)
  {
    var missing := FindBlank(RequiredValues(values));
    if missing.Some? {
      return Err(ArgumentError(MissingValue(VALUE_KEYS[missing.value])));
    }
    var phone := w.ensureCountryCode(values.phone.value);
    if phone.None? {
      return Err(PhoneUtilityError(values.phone.value));
    }
    var deliveryStatus := GatewayDeliveryStatusToDeliveryStatus(values.gatewayStatus.value);
    var occurredAt := ParseInZone(DayFirst, values.occurredAt.value, parser.timeZone, w);
    if occurredAt.None? {
      return Err(ArgumentError(UnparseableOccurredAt(values.occurredAt.value)));
    }
    r := Ok(DeliveryNotification(values.gatewayStatus.value, deliveryStatus, phone.value, values.messageId.value,
                                 occurredAt.value, values.reasonNotDelivered));
  }

  /** The webhook parameters `from_http_push_params` requires, in the order it checks them. */
  const PUSH_KEYS: seq<string> := ["PhoneNumber", "Status", "CustomerMessageId", "dateTime"]

  /** The values hash `from_http_push_params` builds from the parameters. */
  function ValuesOfParams(params: map<string, string>): NotificationValues
  {
    NotificationValues(Lookup(params, "Status"), Lookup(params, "PhoneNumber"), Lookup(params, "CustomerMessageId"),
                       Lookup(params, "dateTime"), Lookup(params, "ReasonNotDelivered"))
  }

  /**
   * What `from_http_push_params` returns for the parameters as the caller
   * passed them: they are normalised first, then the first blank required
   * parameter raises, then the values are parsed.  A kosher notification
   * is failed, carries the reason "kosher_number", and does not need a
   * date-time of its own.
   */
  function NotificationFromPushParams(parser: DeliveryNotificationParser, params: map<string, string>, w: World)
    : (r: Result<DeliveryNotification>)
    ensures var missing := FirstBlank(Lookups(NormalizedParams(params, w.nowStamp), PUSH_KEYS));
      && (missing.Some? ==> r == Err(ArgumentError(MissingParameter(PUSH_KEYS[missing.value]))))
      && (missing.None? ==> r == NotificationFromValues(parser, ValuesOfParams(NormalizedParams(params, w.nowStamp)), w))
    ensures r.Ok? ==>
      && Lookup(params, "Status") == Some(r.value.gatewayStatus)
      && r.value.deliveryStatus == GatewayDeliveryStatusToDeliveryStatus(r.value.gatewayStatus)
      && "PhoneNumber" in params && w.ensureCountryCode(params["PhoneNumber"]) == Some(r.value.phone)
      && Lookup(params, "CustomerMessageId") == Some(r.value.messageId)
    ensures r.Ok? && IsKosher(params) ==>
      r.value.deliveryStatus == Failed && r.value.reasonNotDelivered == Some(KOSHER_REASON)
    ensures r.Ok? && !IsKosher(params) ==>
      && r.value.reasonNotDelivered == Lookup(params, "ReasonNotDelivered")
      && "dateTime" in params && Strftime(r.value.occurredAt.local, DayFirst) == params["dateTime"]
  {
    var normalized := NormalizedParams(params, w.nowStamp);
    match FirstBlank(Lookups(normalized, PUSH_KEYS))
    case Some(i) => Err(ArgumentError(MissingParameter(PUSH_KEYS[i])))
    case None => NotificationFromValues(parser, ValuesOfParams(normalized), w)
  }

  /**
   * DeliveryNotificationParser#from_http_push_params.  The caller's hash is
   * left normalised, whatever the outcome.
   */
  method FromHttpPushParams(parser: DeliveryNotificationParser, params: PushParams, w: World)
    returns (r: Result<DeliveryNotification>)
    modifies params
    ensures params.entries == NormalizedParams(old(params.entries), w.nowStamp)
    ensures r == NotificationFromPushParams(parser, old(params.entries), w)
  {
    NormalizeHttpPushParams(params, w.nowStamp);
    var missing := FindBlank(Lookups(params.entries, PUSH_KEYS));
    if missing.Some? {
      return Err(ArgumentError(MissingParameter(PUSH_KEYS[missing.value])));
    }
    var values := ValuesOfParams(params.entries);
    r := ParseNotificationValuesHash(parser, values, w);
  }

  /**
   * A kosher notification passes the required-parameter check without a
   * date-time of its own: the synthesised one stands in for it.
   */
  lemma KosherNeedsNoDateTime(parser: DeliveryNotificationParser, params: map<string, string>, w: World)
    requires IsKosher(params)
    requires Present(Lookup(params, "PhoneNumber")) && Present(Lookup(params, "CustomerMessageId"))
    requires !BlankString(w.nowStamp)
    ensures NotificationFromPushParams(parser, params, w) ==
            NotificationFromValues(parser, ValuesOfParams(NormalizedParams(params, w.nowStamp)), w)
  {
    var normalized := NormalizedParams(params, w.nowStamp);
    assert Lookups(normalized, PUSH_KEYS) == [Lookup(params, "PhoneNumber"), Some(KOSHER), Lookup(params, "CustomerMessageId"),
                                      Some(w.nowStamp)];
    assert !BlankString(KOSHER) by { assert !IsSpace(KOSHER[0]); }
  }

  /**
   * Any required parameter left out is an ArgumentError about a missing
   * parameter; only a kosher notification may leave out the date-time.
   */
  lemma MissingParameterIsRejected(parser: DeliveryNotificationParser, params: map<string, string>, w: World,
                                   name: string)
    requires name in PUSH_KEYS && name !in params
    requires name == "dateTime" ==> !IsKosher(params)
    ensures NotificationFromPushParams(parser, params, w).Err?
    ensures NotificationFromPushParams(parser, params, w).error.ArgumentError?
    ensures NotificationFromPushParams(parser, params, w).error.reason.MissingParameter?
  {
    var normalized := NormalizedParams(params, w.nowStamp);
    var k :| 0 <= k < |PUSH_KEYS| && PUSH_KEYS[k] == name;
    assert name !in normalized;
    assert Blank(Lookups(normalized, PUSH_KEYS)[k]);
  }

  /** The parameters of the parser's test. */
  const TEST_PARAMS: map<string, string> :=
    map["Status" := "inprogress", "CustomerMessageId" := "a1", "PhoneNumber" := "0545123456",
        "dateTime" := "19-03-2012 23:29:12"]

  /** The notification of the parser's test, read in any zone `Time.use_zone` knows. */
  lemma InProgressExample(parser: DeliveryNotificationParser, w: World)
    requires w.ensureCountryCode("0545123456") == Some("972545123456")
    requires w.knownZone(SelectZone(parser.timeZone, w.ambientZone))
    ensures NotificationFromPushParams(parser, TEST_PARAMS, w) ==
      Ok(DeliveryNotification("inprogress", InProgress, "972545123456", "a1",
                              ZonedTime(SelectZone(parser.timeZone, w.ambientZone), DateTime(2012, 3, 19, 23, 29, 12)),
                              None))
  {
    var params := TEST_PARAMS["dateTime" := "19-03-2012 23:29:12"];
    assert params == TEST_PARAMS;
    TestParamsAreComplete(params, "19-03-2012 23:29:12", w);
    assert NotificationFromPushParams(parser, params, w) == NotificationFromValues(parser, ValuesOfParams(params), w);
    TestValuesGiveNotification(parser, w);
  }

  /** The values hash the test's parameters become is parsed into the test's notification. */
  lemma TestValuesGiveNotification(parser: DeliveryNotificationParser, w: World)
    requires w.ensureCountryCode("0545123456") == Some("972545123456")
    requires w.knownZone(SelectZone(parser.timeZone, w.ambientZone))
    ensures NotificationFromValues(parser, NotificationValues(Some("inprogress"), Some("0545123456"), Some("a1"),
                                                              Some("19-03-2012 23:29:12"), None), w) ==
      Ok(DeliveryNotification("inprogress", InProgress, "972545123456", "a1",
                              ZonedTime(SelectZone(parser.timeZone, w.ambientZone), DateTime(2012, 3, 19, 23, 29, 12)),
                              None))
  {
    var values := NotificationValues(Some("inprogress"), Some("0545123456"), Some("a1"),
                                     Some("19-03-2012 23:29:12"), None);
    assert FirstBlank(RequiredValues(values)).None? by {
      assert !IsSpace("0545123456"[0]) && !IsSpace("inprogress"[0]) && !IsSpace("a1"[0]);
      assert !IsSpace("19-03-2012 23:29:12"[0]);
    }
    TestDateTimeParses();
  }

  /** The test's parameters, with a present date-time of any kind, pass the required-parameter checks. */
  lemma TestParamsAreComplete(params: map<string, string>, dateTime: string, w: World)
    requires params == TEST_PARAMS["dateTime" := dateTime] && |dateTime| > 0 && !IsSpace(dateTime[0])
    ensures NormalizedParams(params, w.nowStamp) == params
    ensures FirstBlank(Lookups(params, PUSH_KEYS)).None?
    ensures ValuesOfParams(params) == NotificationValues(Some("inprogress"), Some("0545123456"), Some("a1"),
                                                         Some(dateTime), None)
    ensures FirstBlank(RequiredValues(ValuesOfParams(params))).None?
  {
    assert !IsKosher(params);
    assert !IsSpace("0545123456"[0]) && !IsSpace("inprogress"[0]) && !IsSpace("a1"[0]);
    assert Lookups(params, PUSH_KEYS) == [Some("0545123456"), Some("inprogress"), Some("a1"), Some(dateTime)];
  }

  lemma TestDateTimeParses()
    ensures Strptime("19-03-2012 23:29:12", DayFirst) == Some(DateTime(2012, 3, 19, 23, 29, 12))
  {
    var dt := DateTime(2012, 3, 19, 23, 29, 12);
    assert Two(19) == "19" && Two(3) == "03" && Two(23) == "23" && Two(29) == "29" && Two(12) == "12";
    assert Four(2012) == "2012" by { assert Two(20) == "20" && Two(12) == "12"; }
    assert Strftime(dt, DayFirst) == "19-03-2012 23:29:12";
    StrptimeIsInverseOfStrftime("19-03-2012 23:29:12", DayFirst, dt);
  }

  /** A date-time that is not `DD-MM-YYYY HH:MM:SS` is an ArgumentError carrying the text. */
  lemma UnparseableDateTimeIsRejected(parser: DeliveryNotificationParser, w: World)
    requires w.ensureCountryCode("0545123456").Some?
    ensures NotificationFromPushParams(parser, TEST_PARAMS["dateTime" := "asdf"], w) ==
            Err(ArgumentError(UnparseableOccurredAt("asdf")))
  {
    TestParamsAreComplete(TEST_PARAMS["dateTime" := "asdf"], "asdf", w);
  }
}
