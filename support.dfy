/**
 * What the three components share: ActiveSupport's notion of a blank value,
 * the "raise on the first blank key" guard every entry point starts with, the
 * error kinds the core raises, and the collaborators it calls but does not own
 * (the phone-number utility, the process time zone, the clock), which the
 * model receives as a `World` value.
 */
module Support {
  import opened Wrappers
  import opened Calendar

  /** The characters Ruby's [[:space:]] matches: the Unicode White_Space property. */
  predicate IsSpace(c: char)
  {
    || c == ' ' || '\t' <= c <= '\r'
    || c == '\U{85}' || c == '\U{A0}' || c == '\U{1680}'
    || '\U{2000}' <= c <= '\U{200A}'
    || c == '\U{2028}' || c == '\U{2029}' || c == '\U{202F}' || c == '\U{205F}' || c == '\U{3000}'
  }

  /** String#blank?: empty or white space only. */
  predicate BlankString(s: string)
  {
    forall i :: 0 <= i < |s| ==> IsSpace(s[i])
  }

  /** Object#blank? on a value that is nil or a string. */
  predicate Blank(v: Option<string>)
  {
    v.None? || BlankString(v.value)
  }

  predicate Present(v: Option<string>)
  {
    !Blank(v)
  }

  /** Hash#[]: the value under `k`, or nil. */
  function Lookup<K, V>(m: map<K, V>, k: K): Option<V>
  {
    if k in m then Some(m[k]) else None
  }

  /** `keys.map { |k| m[k] }`: the values under `keys`, in their order. */
  function Lookups<V>(m: map<string, V>, keys: seq<string>): (r: seq<Option<V>>)
    ensures |r| == |keys|
    ensures forall i :: 0 <= i < |r| ==> r[i] == Lookup(m, keys[i])
  {
    if keys == [] then [] else [Lookup(m, keys[0])] + Lookups(m, keys[1..])
  }

  /**
   * The position of the first blank value, where a guard loop of the form
   * `keys.each { |k| raise ... if h[k].blank? }` raises; None when it raises
   * on none of them.
   */
  function FirstBlank(values: seq<Option<string>>): (r: Option<nat>)
    ensures r.Some? ==> r.value < |values| && Blank(values[r.value])
    ensures r.Some? ==> forall j :: 0 <= j < r.value ==> Present(values[j])
    ensures r.None? ==> forall j :: 0 <= j < |values| ==> Present(values[j])
  {
    if values == [] then None
    else if Blank(values[0]) then Some(0)
    else
      match FirstBlank(values[1..])
      case None => None
      case Some(j) => Some(j + 1)
  }

  /** The guard loop itself: looks at the values in order and stops at the first blank one. */
  method FindBlank(values: seq<Option<string>>) returns (missing: Option<nat>)
    ensures missing == FirstBlank(values)
  {
    var i := 0;
    while i < |values|
      invariant 0 <= i <= |values|
      invariant forall j :: 0 <= j < i ==> Present(values[j])
    {
      if Blank(values[i]) {
        return Some(i);
      }
      i := i + 1;
    }
    return None;
  }

  /** A JSON value, as a decoder or HTTParty hands it over. */
  datatype Json =
    | JNull
    | JBool(b: bool)
    | JNumber(n: int)
    | JString(s: string)
    | JArray(items: seq<Json>)
    | JObject(fields: map<string, Json>)

  /** Why an ArgumentError was raised. */
  datatype Reason =
    | MissingOption(key: string)          // SmsSender.new without api_url, username or password
    | BlankText                           // "Text must be at least 1 character long"
    | NoPhones                            // "No phones were given"
    | NoSender                            // "Either :sender_name or :sender_number attribute required"
    | InvalidSenderNumber(number: string) // "Sender number must be between 4 to 14 digits"
    | InvalidSenderName                   // "Sender name must be between 2 and 11 latin chars"
    | InvalidPhone(phone: string)         // "must be cellular phone with 972 country code"
    | MissingParameter(name: string)      // a blank webhook parameter
    | MissingValue(key: string)           // a blank key of a values hash
    | UnparseableOccurredAt(raw: string)  // "occurred_at could not be converted to date"
    | UnparseableReceivedAt(raw: string)  // "received_at could not be converted to date"

  /** Why a GatewayError was raised. */
  datatype GatewayFailure =
    | NotJson(body: string)                      // "Failed to parse response to json"
    | Unsuccessful(response: map<string, Json>)  // "Failed to send sms"

  datatype Error =
    | ArgumentError(reason: Reason)
    | NonOkStatus(code: int)              // StandardError "Non 200 http response code"
    | GatewayError(failure: GatewayFailure)
    | PhoneUtilityError(phone: string)    // whatever ensure_country_code raises, passed on

  datatype Result<+T> = Ok(value: T) | Err(error: Error)

  /**
   * The collaborators the core calls.  PhoneNumberUtils' four operations
   * (`ensureCountryCode` answers None where the utility raises), the
   * process-wide `Time.zone` (None when unset), the zone names `Time.use_zone`
   * accepts, `Time.now`, and `Time.now` written with the kosher pattern.
   */
  datatype World = World(
    ensureCountryCode: string -> Option<string>,
    validCellularPhone: string -> bool,
    validSenderNumber: string -> bool,
    validSenderName: string -> bool,
    ambientZone: Option<string>,
    knownZone: string -> bool,
    now: ZonedTime,
    nowStamp: string)

  const FALLBACK_ZONE := "Jerusalem"

  /**
   * `options[:time_zone] || Time.zone || 'Jerusalem'`: an explicit zone
   * option wins over `Time.zone`, which wins over the fallback.  Only nil
   * falls through; an empty option string is chosen like any other.
   */
  function SelectZone(option: Option<string>, ambient: Option<string>): (zone: string)
    ensures option.Some? ==> zone == option.value
    ensures option.None? && ambient.Some? ==> zone == ambient.value
    ensures option.None? && ambient.None? ==> zone == "Jerusalem"
  {
    if option.Some? then option.value
    else if ambient.Some? then ambient.value
    else FALLBACK_ZONE
  }

  /**
   * `Time.use_zone(zone) { Time.zone.parse(DateTime.strptime(raw, pattern).strftime(pattern)) }`:
   * the wall-clock fields of `raw` read in the selected zone, or None where
   * the block raises (the zone is unknown or `raw` does not parse).
   */
  function ParseInZone(layout: Layout, raw: string, option: Option<string>, w: World): (r: Option<ZonedTime>)
    ensures r.Some? <==> w.knownZone(SelectZone(option, w.ambientZone)) && Strptime(raw, layout).Some?
    ensures r.Some? ==> r.value.zone == SelectZone(option, w.ambientZone)
    ensures r.Some? ==> ValidDateTime(r.value.local) && Strftime(r.value.local, layout) == raw
  {
    var zone := SelectZone(option, w.ambientZone);
    if !w.knownZone(zone) then None
    else
      match Strptime(raw, layout)
      case None => None
      case Some(dt) =>
        ParsedTextIsWritten(raw, layout);
        Some(ZonedTime(zone, dt))
  }
}
