# Multi-SIM CDMA inbound-SMS dispatch, modelled in Dafny

This project models `MSimCdmaSMSDispatcher`, the multi-SIM CDMA inbound-SMS
dispatcher of the Android telephony framework. It has four entry points and
each takes an already-decoded inbound unit:

- raw PDUs;
- port-addressed PDUs;
- a cell-broadcast message;
- a CDMA SMS that carries service-category program data.

Each entry point wraps the unit in an intent with a chosen action and typed
extras, and tags it with the phone's subscription id. It then hands the
intent to the superclass `dispatch` together with the permission and the
app-op a receiver must hold. The program-data path also passes a result
receiver.

Files:

- `options.dfy`: `Option`, which models Java's nullable references.
- `port_uri.dfy` (module `PortUri`): the data URI `"sms://localhost:" + port`.
  This covers Java's decimal rendering of an `int` and a parser that reads the
  port back. The lemmas prove the round trip and that the URI is injective.
- `intents.dfy` (module `SmsIntents`): the intent, its extras bag and a
  `Submission` (one `dispatch` call), all as plain values. It also holds the
  five delivery channels (`Kind`) with each channel's action and permission.
  `WellFormed` is the invariant every submission of the dispatcher keeps:
  - a known channel;
  - that channel's permission, so emergency broadcasts alone carry the
    emergency permission;
  - app-op `OP_RECEIVE_SMS`;
  - a subscription tag;
  - a data URI exactly on the port-addressed channel, and the port parses back
    from it;
  - a result receiver exactly on the program-data channel.
- `dispatcher.dfy` (module `MSimCdmaDispatch`): one function per entry point
  gives the submissions it produces (zero or one). The class
  `MSimCdmaSmsDispatcher` has a `submissions` log that stands for the calls of
  `dispatch`. Its four methods build the extras map step by step, as the
  source's `putExtra` calls do. Each method is proved to append exactly what
  its function states, and to keep every logged submission `WellFormed`.

Abstract inputs:

- `getFormat()` and `mScpResultsReceiver` are constants given when the
  dispatcher is constructed.
- `mPhone.getSubscription()` is the `subscription` field of a `Phone` object.
  It is read afresh on every call.
- The superclass `dispatch` is `Dispatch`, which appends to the log and keeps
  `Valid()`, so every logged submission is well-formed.

The action strings, permission strings, `OP_RECEIVE_SMS` (16) and the
subscription key (`"subscription"`) take their values from the Android
framework. The source only uses them by name.

The code drops the program-data message only when the program-data list is
null (`MSimCdmaSMSDispatcher.java:110`) and still dispatches an empty list:
`ProgramDataSubmissions` is empty exactly when the list is `None`, and
`Some([])` is dispatched.

## Model

| member | source | states |
|---|---|---|
| `PortUri.NatDigits` | frameworks/src/com/codeaurora/internal/telephony/MSimCdmaSMSDispatcher.java:71 | Java's decimal rendering of a natural number is a non-empty string of digits with no leading zero, and it is one digit exactly for values below 10 |
| `PortUri.DecimalString` | frameworks/src/com/codeaurora/internal/telephony/MSimCdmaSMSDispatcher.java:71 | the rendering of an `int` starts with `-` exactly when the value is negative, and a non-empty run of digits with no leading zero follows |
| `PortUri.DataUri` | frameworks/src/com/codeaurora/internal/telephony/MSimCdmaSMSDispatcher.java:71 | the data URI begins with `sms://localhost:` and has more after it |
| `PortUri.DigitsValueOfNatDigits` | frameworks/src/com/codeaurora/internal/telephony/MSimCdmaSMSDispatcher.java:71 | reading the decimal digits of `n` back gives `n` |
| `PortUri.ParseDecimalOfDecimalString` | frameworks/src/com/codeaurora/internal/telephony/MSimCdmaSMSDispatcher.java:71 | parsing the decimal rendering of any integer gives that integer, negatives included |
| `PortUri.ParsePortOfDataUri` | frameworks/src/com/codeaurora/internal/telephony/MSimCdmaSMSDispatcher.java:71 | stripping `sms://localhost:` from the data URI and parsing the rest gives back the port |
| `PortUri.DataUriInjective` | frameworks/src/com/codeaurora/internal/telephony/MSimCdmaSMSDispatcher.java:71 | distinct ports give distinct data URIs |
| `SmsIntents.Action` | frameworks/src/com/codeaurora/internal/telephony/MSimCdmaSMSDispatcher.java:55-115 | each channel's action identifies that channel again, so the five actions are pairwise distinct |
| `SmsIntents.EmergencyPermissionOnlyOnEmergency` | frameworks/src/com/codeaurora/internal/telephony/MSimCdmaSMSDispatcher.java:87-99 | on every well-formed submission the emergency-broadcast permission appears exactly on the emergency channel, and the SMS permission on every other channel |
| `MSimCdmaDispatch.LoggedEmergencyPermissionOnlyOnEmergency` | frameworks/src/com/codeaurora/internal/telephony/MSimCdmaSMSDispatcher.java:87-99 | on a valid dispatcher's log, an entry carries the emergency-broadcast permission exactly when it is an emergency broadcast |
| `MSimCdmaDispatch.PdusSubmission` | frameworks/src/com/codeaurora/internal/telephony/MSimCdmaSMSDispatcher.java:54-61 | a standard SMS goes out well-formed on the standard channel with no data URI. Its extras are exactly `pdus` (the input), `format` and the subscription. It carries RECEIVE_SMS and OP_RECEIVE_SMS and no result receiver |
| `MSimCdmaDispatch.PortAddressedPdusSubmission` | frameworks/src/com/codeaurora/internal/telephony/MSimCdmaSMSDispatcher.java:70-78 | a port-addressed SMS goes out well-formed on the data-SMS channel. Its data URI is `DataUri(port)` and the port parses back from it. Its extras, permission, app-op and (absent) receiver equal the standard path's |
| `MSimCdmaDispatch.BroadcastMessageSubmission` | frameworks/src/com/codeaurora/internal/telephony/MSimCdmaSMSDispatcher.java:86-100 | the emergency action and the emergency permission appear exactly when the message is an emergency message. Otherwise the normal-broadcast action and RECEIVE_SMS appear, so exactly one of the two happens. Extras are exactly `message` (the input, unchanged) and the subscription. No data URI and no result receiver |
| `MSimCdmaDispatch.ProgramDataSubmissions` | frameworks/src/com/codeaurora/internal/telephony/MSimCdmaSMSDispatcher.java:108-121 | at most one submission, and none exactly when the list is null. Otherwise the submission is well-formed on the program-data channel with extras exactly the subscription, `sender` (the originating address) and `program_data` (the same list, even when empty). It carries RECEIVE_SMS, OP_RECEIVE_SMS and the result receiver |
| `MSimCdmaDispatch.MSimCdmaSmsDispatcher.constructor` | frameworks/src/com/codeaurora/internal/telephony/MSimCdmaSMSDispatcher.java:42-46 | a new dispatcher has an empty log and keeps the phone, format and result receiver it was given |
| `MSimCdmaDispatch.MSimCdmaSmsDispatcher.Dispatch` | frameworks/src/com/codeaurora/internal/telephony/MSimCdmaSMSDispatcher.java:120 | `dispatch` appends exactly one submission, made of its arguments, to the log; called only with well-formed submissions, it keeps every logged entry well-formed |
| `MSimCdmaDispatch.MSimCdmaSmsDispatcher.DispatchPdus` | frameworks/src/com/codeaurora/internal/telephony/MSimCdmaSMSDispatcher.java:54-61 | the log grows by exactly `PdusSubmission` for the current subscription, earlier entries stay unchanged, and every entry stays well-formed |
| `MSimCdmaDispatch.MSimCdmaSmsDispatcher.DispatchPortAddressedPdus` | frameworks/src/com/codeaurora/internal/telephony/MSimCdmaSMSDispatcher.java:70-78 | the log grows by exactly `PortAddressedPdusSubmission` for the current subscription, earlier entries stay unchanged, and every entry stays well-formed |
| `MSimCdmaDispatch.MSimCdmaSmsDispatcher.DispatchBroadcastMessage` | frameworks/src/com/codeaurora/internal/telephony/MSimCdmaSMSDispatcher.java:86-100 | the log grows by exactly `BroadcastMessageSubmission` for the current subscription, earlier entries stay unchanged, and every entry stays well-formed |
| `MSimCdmaDispatch.MSimCdmaSmsDispatcher.HandleServiceCategoryProgramData` | frameworks/src/com/codeaurora/internal/telephony/MSimCdmaSMSDispatcher.java:108-121 | the log grows by `ProgramDataSubmissions` for the current subscription and `mScpResultsReceiver`, so by nothing for a null list and by one entry otherwise. Earlier entries stay unchanged and every entry stays well-formed |
| `MSimCdmaDispatch.DispatchPdusTwice` | frameworks/src/com/codeaurora/internal/telephony/MSimCdmaSMSDispatcher.java:40-121 | the dispatcher keeps no state between calls, so two identical calls append two equal submissions, neither merged nor lost |

## Left out

- Android framework types and calls (`Intent`, `Uri.parse`, `AppOpsManager`, `Rlog`) are plain values and strings here. The data URI is kept as the string handed to `Uri.parse`.
- Dispatch: requires a well-formed submission. The superclass `dispatch` accepts any intent, but in this model only the four entry points call it, and each passes a well-formed one.
- Logging is not modelled. The null-list case is simply "no submission".
- The behaviour of the superclass `CdmaSMSDispatcher.dispatch` is not part of this model: it is only an append to the log. This means receiver discovery, fan-out, and permission and app-op enforcement are left out. `getFormat()`, `mScpResultsReceiver` and `PhoneBase.getSubscription()` are opaque inputs.
- Null `pdus`, `message` or `sms` arguments are not modelled (Java stores a null extra, or throws NullPointerException).
- PDU contents, `SmsCbMessage` and `CdmaSmsCbProgramData` are not decoded. They are opaque values, plus the emergency flag and the originating address. A null originating address is not modelled.
- The constructor only stores the abstract inputs. Forwarding to the superclass's storage and usage monitors is not modelled.
- Concurrency, ordering across subscriptions, and the asynchronous result-receiver callback are left out. None of them is implemented in this dispatcher.
