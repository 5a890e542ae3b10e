# paycall-sms in Dafny

A model of the core of the `pay_call_sms` Ruby gem, a client for the
PayCall / Multisend SMS gateway, with proofs about it. The gem has three
independent parts:

- **`SmsSender`** is created from its options. It defaults `api_url` to the
  Multisend endpoint and refuses blank credentials. `send_sms` checks a
  request in a fixed order: text, phones, sender, sender number, sender name,
  then each phone. It then builds the form parameters of the gateway POST and
  reads the gateway's answer. The answer is a message id generated by the
  client, a non-200 error, or a gateway error.
- **`DeliveryNotificationParser`** turns the gateway's delivery webhook
  parameters into a notification. It first rewrites the "kosher"
  (blocked-number) status. It then checks the required parameters, puts the
  phone in country-code form, looks up the delivery status in a fixed table,
  and reads `dateTime` as `%d-%m-%Y %H:%M:%S` in the chosen zone.
- **`IncomingMessageParser`** turns the webhook parameters of a reply into a
  reply record. It checks and renames the fields and puts both phones in
  country-code form. A string `received_at` is read as `%Y-%m-%d %H:%M:%S`;
  anything else is replaced by the current time.

The modules follow the gem's files:

- `Wrappers`: the `Option` type.
- `Calendar`: dates, and the two strptime/strftime layouts with their exact
  round trip.
- `Support`: `blank?`, the first-blank-key guard, the error kinds, the zone
  choice, and the `World` of collaborators.
- `SmsSending`: `sms_sender.rb`.
- `DeliveryNotifications`: `delivery_notification_parser.rb`.
- `IncomingMessages`: `incoming_message_parser.rb`.

Some code runs outside the core. The model receives it as input instead:

- **`World` fields:**
  - `PhoneNumberUtils`: `ensure_country_code`, `valid_cellular_phone?`,
    `valid_sender_number?` and `valid_sender_name?`.
  - `Time.zone`.
  - The zone names `Time.use_zone` accepts.
  - `Time.now`, and `Time.now` formatted as the kosher stamp.
- **Parameters of `SendSms`:**
  - The UUID.
  - The HTTP response.
  - The JSON decoder.

A Ruby exception is an `Err` value of a `Result`:

- `ArgumentError(reason)`.
- `NonOkStatus` for the `StandardError` on a non-200 code.
- `GatewayError`.
- `PhoneUtilityError` where `ensure_country_code` raises.

Each imperative piece of the gem is a Dafny `method` proved equal to a
specification function. These pieces are the guard loops, `send_sms`,
`build_send_sms_params` with its in-place updates, and the two
`from_http_push_params`. `normalize_http_push_params` mutates the caller's
hash, so it is a method on a `PushParams` object with a `modifies` clause.

The status lookup is case-sensitive. `with_indifferent_access` lets a string
find a symbol key but does not fold case, so "Delivered" maps to unknown.

The test for a non-cellular phone (spec/pay_call_sms/sms_sender_spec.rb:19-22)
passes no sender option. Its requests therefore never reach the cellular check:
the sender guard raises first.

## Model

| member | source | states |
|---|---|---|
| Calendar.StrptimeIsInverseOfStrftime | lib/pay_call_sms/delivery_notification_parser.rb:53-54 | A text parses to a date-time exactly when that date-time is valid and the layout writes it as that text. The day, month, year, hour, minute and second of the input are kept (both layouts). |
| Support.FirstBlank | lib/pay_call_sms/delivery_notification_parser.rb:44-46 | The guard position is a blank value with only present values before it. None means every value is present. |
| Support.Lookups | lib/pay_call_sms/delivery_notification_parser.rb:17-18 | The values under the guard's keys, in key order: position i holds the hash's value under key i, or nil. |
| Support.FindBlank | lib/pay_call_sms/sms_sender.rb:18 | The guard loop stops at the same position FirstBlank names, or passes every value. |
| Support.SelectZone | lib/pay_call_sms/delivery_notification_parser.rb:52 | An explicit time_zone option wins, then Time.zone, then "Jerusalem". |
| Support.ParseInZone | lib/pay_call_sms/incoming_message_parser.rb:51-57 | Parsing succeeds exactly when the selected zone is known and the text parses. The result is in the selected zone and its fields write back as the input text. |
| SmsSending.MergedOptions | lib/pay_call_sms/sms_sender.rb:15 | Every given option is kept, even a nil one. api_url is the Multisend URL only when it is not given. |
| SmsSending.New | lib/pay_call_sms/sms_sender.rb:14-19 | A sender exists exactly when api_url, username and password are present after the merge, and it holds the merged options. Otherwise the error names the first blank key. |
| SmsSending.ApiUrlOfMergedOptions | lib/pay_call_sms/sms_sender.rb:21-23 | A sender built from options reports the api_url it was given (nil included), and the Multisend URL when none was given. |
| SmsSending.PhoneList | lib/pay_call_sms/sms_sender.rb:39 | A single phone becomes a one-element list. An array is kept. |
| SmsSending.FirstInvalidPhone | lib/pay_call_sms/sms_sender.rb:40-42 | The position found is the first phone the cellular check rejects. None means every phone passes. |
| SmsSending.SendValidation | lib/pay_call_sms/sms_sender.rb:33-42 | Each ArgumentError happens exactly when its guard fails and every earlier one passes: blank text, then blank phones, then no sender, then an invalid present sender number, then an invalid present sender name, then the first non-cellular phone. The request passes exactly when none applies. |
| SmsSending.SplitOfJoin | lib/pay_call_sms/sms_sender.rb:73 | Splitting the comma-joined recipient list at commas gives back the phones, when no phone holds a comma. |
| SmsSending.JoinAddsOnlySeparators | lib/pay_call_sms/sms_sender.rb:73 | Joining adds no character other than the separator, so there are no spaces. |
| SmsSending.SendSmsParams | lib/pay_call_sms/sms_sender.rb:70-79 | Exact key set. user and password come from the options. message and customermessageid are verbatim. recipient is the joined phones. deliverynotificationURL appears only when present. from is the sender name when present, else the sender number (possibly nil). |
| SmsSending.BuildSendSmsParams | lib/pay_call_sms/sms_sender.rb:69-81 | The hash built in place, with from assigned twice, equals SendSmsParams. |
| SmsSending.InterpretResponse | lib/pay_call_sms/sms_sender.rb:49-66 | A non-200 code is NonOkStatus. An undecodable text body is a GatewayError. A decoded body whose success is not literally true is a GatewayError. The result is Ok exactly otherwise, and it carries the id generated before the POST. |
| SmsSending.SendSms | lib/pay_call_sms/sms_sender.rb:32-67 | No POST is made exactly when validation fails, and then the error is the validation error. Otherwise the POST goes to api_url with SendSmsParams of the wrapped phones and the UUID, Accept application/json, and the answer is read as InterpretResponse says. |
| SmsSending.PhoneWithoutSenderFailsOnSender | spec/pay_call_sms/sms_sender_spec.rb:19-22 | Both of that test's requests (phones 0541234567 and 541234567), made without sender options, are rejected by the sender guard before any phone is checked. |
| SmsSending.NamedSenderRequestIsSent | spec/pay_call_sms/sms_sender_spec.rb:34-39 | The test request 'asdf' with sender_name '1234' passes every guard when the utility accepts its name and phone. |
| DeliveryNotifications.GatewayDeliveryStatusToDeliveryStatus | lib/pay_call_sms/delivery_notification_parser.rb:63-65 | inprogress and pending give in-progress. delivered gives delivered. failed and kosher give failed. Every other string gives unknown, each stated as an if-and-only-if. |
| DeliveryNotifications.NormalizedParams | lib/pay_call_sms/delivery_notification_parser.rb:67-73 | For the status "kosher", ReasonNotDelivered becomes "kosher_number" and dateTime becomes the current time, and nothing else changes. Any other status leaves the parameters unchanged. |
| DeliveryNotifications.NormalizingTwiceIsNormalizingOnce | lib/pay_call_sms/delivery_notification_parser.rb:67-73 | Normalising is idempotent. |
| DeliveryNotifications.NormalizeHttpPushParams | lib/pay_call_sms/delivery_notification_parser.rb:67-73 | The caller's hash is changed in place to NormalizedParams of its old contents. |
| DeliveryNotifications.RequiredValuesFollowKeys | lib/pay_call_sms/delivery_notification_parser.rb:44 | Position i holds the hash's value under the i-th required key, so the key an error names is the key whose value is blank. |
| DeliveryNotifications.NotificationFromValues | lib/pay_call_sms/delivery_notification_parser.rb:42-61 | Errors: a blank required key gives a MissingValue for the first one, the phone utility's failure is passed on, and an unreadable occurred_at gives an ArgumentError. Ok exactly when none happens. On Ok: status, id and reason are verbatim, the phone is country-coded, the delivery status is the table value, and occurred_at is in the selected zone and writes back as the input. |
| DeliveryNotifications.ParseNotificationValuesHash | lib/pay_call_sms/delivery_notification_parser.rb:42-61 | The guard loop and field replacements give NotificationFromValues. |
| DeliveryNotifications.NotificationFromPushParams | lib/pay_call_sms/delivery_notification_parser.rb:15-31 | The required-parameter check runs on the normalised parameters, and then the renamed values are parsed. On Ok the fields come from the parameters. A kosher notification is failed with reason kosher_number. Any other notification keeps its reason and its dateTime. |
| DeliveryNotifications.FromHttpPushParams | lib/pay_call_sms/delivery_notification_parser.rb:15-31 | It leaves the caller's hash normalised and returns NotificationFromPushParams of the old hash. |
| DeliveryNotifications.KosherNeedsNoDateTime | lib/pay_call_sms/delivery_notification_parser.rb:16-19 | A kosher notification without its own dateTime passes the required-parameter check. |
| DeliveryNotifications.MissingParameterIsRejected | lib/pay_call_sms/delivery_notification_parser.rb:17-19 | Leaving out any required parameter is a missing-parameter ArgumentError, except dateTime for kosher. |
| DeliveryNotifications.InProgressExample | spec/pay_call_sms/delivery_notifications_parser_spec.rb:20-27 | The test's parameters give id a1, phone 972545123456, status inprogress (in progress), and 19-03-2012 23:29:12 in the selected zone. |
| DeliveryNotifications.TestDateTimeParses | spec/pay_call_sms/delivery_notifications_parser_spec.rb:26 | "19-03-2012 23:29:12" reads as 19 March 2012, 23:29:12. |
| DeliveryNotifications.UnparseableDateTimeIsRejected | spec/pay_call_sms/delivery_notifications_parser_spec.rb:17 | A dateTime of "asdf" is an ArgumentError carrying "asdf". |
| IncomingMessages.RequiredValuesFollowKeys | lib/pay_call_sms/incoming_message_parser.rb:42 | Position i holds the hash's value under the i-th required key, so the key an error names is the key whose value is blank. |
| IncomingMessages.ReplyFromValues | lib/pay_call_sms/incoming_message_parser.rb:40-62 | Errors: a blank required key gives a MissingValue for the first one, the utility's failure on the phone and then on reply_to_phone is passed on, and an unreadable string received_at gives an ArgumentError. Ok exactly when none happens. On Ok: text and id verbatim, both phones country-coded, and received_at is the parsed string in the selected zone, or now when no string was given. |
| IncomingMessages.ParseReplyValuesHash | lib/pay_call_sms/incoming_message_parser.rb:40-62 | The guard loop and field replacements give ReplyFromValues. |
| IncomingMessages.ReplyFromPushParams | lib/pay_call_sms/incoming_message_parser.rb:17-29 | The first blank of msgId, sender, recipient and content is a missing-parameter ArgumentError. Ok exactly when none is blank, sender and recipient are given, and both phones are accepted. On Ok: sender becomes phone, recipient becomes reply_to_phone, content becomes text, msgId becomes message_id, and received_at is now. |
| IncomingMessages.FromHttpPushParams | lib/pay_call_sms/incoming_message_parser.rb:17-29 | The guard loop and call give ReplyFromPushParams. |
| IncomingMessages.MissingParameterIsRejected | lib/pay_call_sms/incoming_message_parser.rb:18-20 | Leaving out any required parameter is a missing-parameter ArgumentError. |
| IncomingMessages.ReplyExample | spec/pay_call_sms/incoming_message_parser_spec.rb:17-26 | The test's parameters give message id a1234, phone 972541234567, reply_to_phone 972529992090 unchanged, text "kak dila", received now. |

## Left out

- HTTP transport (`HTTParty.post`): the response is an input and the request is an output of `SendSms`.
- Logging: `logger.debug` and `logger.error` only have side effects.
- JSON parsing: it is an abstract decoder that yields a map or fails.
- UUID generation and `Time.now`: these are inputs.
- The internals of `PhoneNumberUtils`: that code is not part of this model. Its four operations are uninterpreted functions, and a raising `ensure_country_code` is `None`.
- The retained exception message texts: they are not modelled. Each error carries only its kind and the offending value.
- Time-zone arithmetic: `Time.use_zone` and `Time.zone.parse` are reduced to the chosen zone name and the wall-clock fields. UTC offsets, daylight saving and zone-database contents are not modelled. Whether a zone name is known is an input.
- Ruby `strptime` leniency: the model's parse is strict. Every field has its full width (four-digit years 0 to 9999), the separators are exactly one '-', ' ' or ':', and the text must name a real proleptic Gregorian date and time. Ruby also accepts shorter digit fields, other year widths, an hour of 24 (read as the next midnight), leap seconds, any run of white space (including none) where the pattern has its blank, and its Julian calendar before 1582.
- The kosher timestamp: its contents are the input `nowStamp`. Its exact form (written with `%s`, epoch seconds) is not pinned, so whether a kosher notification's date-time parses is left open.
- Response bodies outside the two kinds: a 200 response whose body is neither a hash nor a string, and a decoded body that is not a map.
- `from` when both sender options are absent: `send_sms` never reaches that case. `SendSmsParams` keeps the nil sender number there.
- Values of other Ruby types: only nil and strings are modelled in the parameter, option and values hashes, except that `received_at` may be any non-string object.
- Value-hash mutation: `parse_notification_values_hash` and `parse_reply_values_hash` overwrite entries of their values hash in place, replacing the strings with a time and a phone of another form. The model takes the values as a record and returns the result, so that mutation is not captured. Each hash `from_http_push_params` builds is fresh, so nothing else can observe it there.
- `OpenStruct`: each result is a record with exactly the modelled fields. Extra keys of a values hash are not carried over.
