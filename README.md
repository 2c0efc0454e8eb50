# twiliophone: a Dafny model of the call coordinator, dial pad, credentials form and reducer

twiliophone is a browser phone on top of the Twilio voice and messaging SDKs. Most of it is glue.
This project models the four parts that hold logic of their own, as the code is written:

- `Services` (`twilio_service.dfy`) is the `TwilioService` class. It holds the device handle, the
  current call, and the status and incoming-call callbacks. It has the call actions (`makeCall`,
  `hangup`, `answerCall`, `rejectCall`, `destroy`, `isReady`), the listeners it attaches to the SDK's
  Call and Device objects, and the result shaping of `sendSMS` and the two history getters. The SDK
  sits outside the model:
  - what the SDK reports back (how `connect` settles, call events, device events, HTTP responses)
    arrives as method inputs.
  - what the service does outside itself is recorded, in order, in one `effects` log: `Emit(status)`
    for a status handed to the status callback, `Surface(call)` for a call handed to the
    incoming-call callback, and `Command(c)` for a command issued to the SDK. A status or call is
    logged only while its callback is registered, as with `callStatusCallback?.(...)`.

  The class invariant `Valid()` says three things. The current call is always a call the service
  placed and listens to. `idle` is never reported. Every call-level command names a call the service
  placed.
- `PhoneInterface` (`phone_interface.dfy`) covers the dial pad. It has the pure formatter
  `formatPhoneNumber` and the class `Dialer`, which holds the component's `phoneNumber`,
  `isCallActive` and `callStatus` state. The handlers are its methods. `Dialer.Valid()` says the
  display is always formatted, and so holds at most ten digits.
- `CredentialsForm` (`credentials_form.dfy`) covers the credentials form. It has the `handleSubmit`
  validation chain, JavaScript's `trim`, the phone-field filter `handlePhoneNumberChange`, and a
  `Form` class whose phone field is only ever written through that filter.
- `PhoneContext` (`phone_context.dfy`) is the reducer over `{contacts, activityLog}`, plus the effect
  of a sequence of dispatches.
- `Chars` (`chars.dfy`) has ASCII digits (`\d`), `startsWith` and digit stripping. `Wrappers`
  (`wrappers.dfy`) has Option and Result.

Behaviour of the code that the model keeps, and a richer design would not have:

- **No transition table.** No action is ever refused as an invalid transition. Calling an action from
  the "wrong" state is either a silent no-op or goes through.
- **Incoming calls never become current.** They are handed to the incoming-call callback only. So
  `answerCall` and `rejectCall` never act on them (`IncomingRejectScenario`).
- **Stale call listeners.** The listeners of a superseded call stay attached, and they clear
  `currentCall` whichever call is current (`SupersededCallScenario`).
- **No active-call invariant.** "A call is current exactly while the last status was connecting,
  ringing or in progress" is not kept: `rejectCall` clears it without a status, and a device error
  reports `failed` without clearing it.
- **A failed readiness wait leaves a device behind.** The device is assigned before the readiness wait,
  so `isReady()` answers true after the wait has failed (`FailedInitializeScenario`).
- **No destroyed state.** `destroy` only drops the handles. After it, `makeCall` fails just as it does
  before initialization.
- **History failures are silent.** Each getter swallows its own failure into an empty list. Nothing
  reports which fetch failed.
- **Validation runs before trimming.** A blank auth token passes the "all fields" check and reaches
  `onConnect` as the empty string (`BlankTokenSubmittedEmpty`).

## Model

| member | source | states |
|---|---|---|
| Services.TwilioService.constructor | src/services/TwilioService.ts:4-13 | a new service holds no device, no current call, no callbacks, and has reported and commanded nothing |
| Services.TwilioService.SetCallStatusCallback | src/services/TwilioService.ts:276-278 | registers the status callback and changes nothing else |
| Services.TwilioService.SetIncomingCallCallback | src/services/TwilioService.ts:280-282 | registers the incoming-call callback and changes nothing else |
| Services.TwilioService.Initialize | src/services/TwilioService.ts:15-51 | a failure while obtaining the token or constructing the Device rethrows and changes nothing, so no device is assigned. Past that point the device is held whatever the wait's outcome; a device error also reports `failed`. Every failure rethrows with the "Failed to initialize Twilio: " prefix, and a timeout uses "Device initialization timeout" |
| Services.TwilioService.MakeCall | src/services/TwilioService.ts:122-143 | without a device it throws "Device not initialized" and changes nothing. Otherwise it reports `connecting` first and then connects with `To` = the number and `From` = the credential number. On success the new call becomes current and gets listeners. On failure it reports `failed`, rethrows and leaves `currentCall` as it was |
| Services.TwilioService.OnCallEvent | src/services/TwilioService.ts:145-173 | `accept` reports in-progress and `ringing` reports ringing, both keeping `currentCall`; `disconnect`/`cancel` report ended and `error` reports failed, all three clearing `currentCall`; a call without listeners changes nothing |
| Services.TwilioService.OnDeviceEvent | src/services/TwilioService.ts:100-120 | a device `error` reports `failed` and leaves `currentCall` alone; `incoming` hands the call to the incoming-call callback; `ready` and `disconnect` change nothing |
| Services.TwilioService.Hangup | src/services/TwilioService.ts:175-181 | with a current call: disconnects it, clears `currentCall`, and reports ended after the disconnect; without one: changes nothing |
| Services.TwilioService.AnswerCall | src/services/TwilioService.ts:183-187 | accepts the current call if there is one; no local state changes |
| Services.TwilioService.RejectCall | src/services/TwilioService.ts:189-194 | rejects the current call if there is one and always leaves `currentCall` absent; reports no status |
| Services.TwilioService.Destroy | src/services/TwilioService.ts:284-297 | afterwards no device, no current call, and `isReady()` answers false. It disconnects the current call, then destroys the device, when present. It reports no status, and on an already destroyed service it changes nothing |
| Services.TwilioService.SendSms | src/services/TwilioService.ts:196-230 | succeeds exactly on an accepted response. Then the record is outbound, with `to` and `body` as passed, `from` the credential number, `id` the response `sid`, and its status and time. A rejected response throws "Failed to send SMS: " + status text. A transport error is rethrown |
| Services.CallHistory | src/services/TwilioService.ts:232-252 | any failure, or a body without `calls`, gives the empty list; otherwise the `calls` list exactly |
| Services.MessageHistory | src/services/TwilioService.ts:254-274 | any failure, or a body without `messages`, gives the empty list; otherwise the `messages` list exactly |
| Services.OutboundCallScenario | src/services/TwilioService.ts:122-181 | place, accept, hang up: connecting is reported, then connect is issued, then in-progress is reported, then disconnect is issued, then ended is reported |
| Services.IncomingRejectScenario | src/services/TwilioService.ts:112-115 | an incoming call reaches the incoming-call callback but never becomes current, so a later reject issues no command and reports nothing: the whole trace is that one hand-over |
| Services.SupersededCallScenario | src/services/TwilioService.ts:151-155 | when the first of two placed calls disconnects, `currentCall` is cleared although the second call is the current one |
| Services.FailedInitializeScenario | src/services/TwilioService.ts:20-45 | a readiness wait that times out throws, yet `isReady()` answers true |
| Services.FailedSetupScenario | src/services/TwilioService.ts:16-21 | a failure before the device is assigned throws with the prefix, and leaves `isReady()` false with nothing reported |
| Services.DestroyTwiceScenario | src/services/TwilioService.ts:288-297 | a second `destroy` issues no further SDK command and the service stays not ready |
| Chars.Digits | src/components/PhoneInterface.tsx:15 | stripping non-digits yields only digits and never lengthens the string |
| Chars.DigitsAppend | src/components/PhoneInterface.tsx:26-27 | the digits of a concatenation are the digits of its parts, concatenated |
| Chars.DigitsIdempotent | src/components/PhoneInterface.tsx:64-66 | stripping non-digits twice is the same as once |
| PhoneInterface.FormatPhoneNumber | src/components/PhoneInterface.tsx:14-23 | the output holds at most 14 characters, all digits or `(`, `)`, space, `-` |
| PhoneInterface.FormatKeepsDigits | src/components/PhoneInterface.tsx:15-22 | the digits of the output are the first min(10, n) digits of the input, in order |
| PhoneInterface.FormatDependsOnlyOnDigits | src/components/PhoneInterface.tsx:14-23 | formatting a string gives the same as formatting its digits alone |
| PhoneInterface.FormatIdempotent | src/components/PhoneInterface.tsx:14-23 | formatting an already formatted string returns it unchanged |
| PhoneInterface.FormattedHoldsAtMostTen | src/components/PhoneInterface.tsx:22 | a formatted display holds at most ten digits |
| PhoneInterface.SymbolKeyIgnored | src/components/PhoneInterface.tsx:69-74 | entering `*` or `#` on a formatted display leaves it unchanged |
| PhoneInterface.DialStringRoundTrip | src/components/PhoneInterface.tsx:38-39 | the dialled number is `+1` and digits only, those digits are the display's, and formatting them gives the display back |
| PhoneInterface.Dialer.constructor | src/components/PhoneInterface.tsx:10-12 | the display starts empty (and formatted), no call is active, the status line is empty |
| PhoneInterface.Dialer.NumberInput | src/components/PhoneInterface.tsx:25-29 | appends and reformats only below ten digits, so the count never exceeds ten. A digit key adds exactly that digit, and `*`/`#` leave the display unchanged |
| PhoneInterface.Dialer.Backspace | src/components/PhoneInterface.tsx:63-67 | the digits afterwards are the old digits minus the last; a non-zero count drops by exactly one; an empty display stays empty |
| PhoneInterface.Dialer.Clear | src/components/PhoneInterface.tsx:59-61 | the display becomes empty |
| PhoneInterface.Dialer.HandleCall | src/components/PhoneInterface.tsx:31-47 | dials nothing and changes nothing unless connected with a non-empty display. Otherwise it dials `+1` followed by exactly the display's digits. On success it shows "Connected" and keeps the call active; on a throw it shows "Call failed" and marks the call inactive. Without a device the service is unchanged; with one it reports connecting, then connects, then reports failed if the connect threw, and only a connected call becomes current and listened. The device and the callbacks stay as they were |
| PhoneInterface.Dialer.HandleHangup | src/components/PhoneInterface.tsx:49-57 | hangs up through the service, then no call is current, the flag is off and the status line empty. With a current call the service issues the disconnect and then reports ended; without one it is unchanged. The device, the listened calls and the callbacks stay as they were |
| CredentialsForm.TrimStart | src/components/CredentialsForm.tsx:39-41 | the result is a suffix of the input that starts with no whitespace, and everything cut off is whitespace |
| CredentialsForm.TrimEnd | src/components/CredentialsForm.tsx:39-41 | the result is a prefix of the input that ends with no whitespace, and everything cut off is whitespace |
| CredentialsForm.TrimIsInfix | src/components/CredentialsForm.tsx:39-41 | a trimmed value is a contiguous infix of the input with no whitespace at either end |
| CredentialsForm.TrimIdempotent | src/components/CredentialsForm.tsx:39-41 | trimming twice is trimming once |
| CredentialsForm.Submit | src/components/CredentialsForm.tsx:19-43 | `onConnect` is reached exactly when all three fields are non-empty, the SID starts with `AC` and the number starts with `+`. The checks run on the untrimmed values and the first failure raises its alert. The values handed over are the trimmed ones |
| CredentialsForm.SubmittedPrefixesSurviveTrim | src/components/CredentialsForm.tsx:28-41 | a SID that passed the `AC` check and a number that passed the `+` check still start with them after trimming, so the credentials handed to `onConnect` do |
| CredentialsForm.BlankTokenSubmittedEmpty | src/components/CredentialsForm.tsx:22-42 | when the SID starts with `AC` and the number with `+`, any non-empty whitespace-only auth token passes validation and reaches `onConnect` as the empty string |
| CredentialsForm.PhoneChars | src/components/CredentialsForm.tsx:47 | the filter keeps only digits and `+` and never lengthens the string |
| CredentialsForm.FormatPhoneInput | src/components/CredentialsForm.tsx:45-52 | the output holds only digits and `+`. It is empty or starts with `+`. It is the filtered input, possibly with one `+` put in front |
| CredentialsForm.PhoneCharsKeepsDigits | src/components/CredentialsForm.tsx:47 | the filter keeps every digit of the input, in order |
| CredentialsForm.FormatPhoneInputKeepsDigits | src/components/CredentialsForm.tsx:45-50 | the auto-formatted value has exactly the input's digits, in order |
| CredentialsForm.FormatPhoneInputIdempotent | src/components/CredentialsForm.tsx:45-52 | auto-formatting twice is auto-formatting once |
| CredentialsForm.FormatPhoneInputEmpty | src/components/CredentialsForm.tsx:47-50 | the value is empty exactly when the input has no digit and no `+` |
| CredentialsForm.FormattedPhoneNeverAlertsPrefix | src/components/CredentialsForm.tsx:33-36 | a phone field kept by the auto-format never triggers the `+` alert |
| CredentialsForm.Form.constructor | src/components/CredentialsForm.tsx:14-16 | all three fields start empty, and the phone field is formatted |
| CredentialsForm.Form.ChangeAccountSid | src/components/CredentialsForm.tsx:80 | stores the typed SID as is |
| CredentialsForm.Form.ChangeAuthToken | src/components/CredentialsForm.tsx:95 | stores the typed token as is |
| CredentialsForm.Form.ChangePhoneNumber | src/components/CredentialsForm.tsx:45-52 | stores the auto-formatted value, so the phone field stays formatted |
| CredentialsForm.Form.HandleSubmit | src/components/CredentialsForm.tsx:19-43 | submits the current fields; on this form the `+` alert cannot fire |
| PhoneContext.ReplaceById | src/context/PhoneContext.js:17-19 | the list keeps its length, and each contact is replaced exactly when its id matches |
| PhoneContext.AddContactAppends | src/context/PhoneContext.js:12-13 | `ADD_CONTACT` appends at the end: one more contact, the earlier ones unchanged, the log untouched |
| PhoneContext.UpdateContactReplaces | src/context/PhoneContext.js:14-20 | `UPDATE_CONTACT` keeps count and order. Every matching contact is replaced, the others are kept, and the log is untouched |
| PhoneContext.UpdateAbsentIdKeepsContacts | src/context/PhoneContext.js:17-19 | `UPDATE_CONTACT` with an id no contact has returns the state unchanged |
| PhoneContext.UpdateContactKeepsIds | src/context/PhoneContext.js:17-19 | `UPDATE_CONTACT` leaves the sequence of ids unchanged |
| PhoneContext.LogActivityPrepends | src/context/PhoneContext.js:21-22 | `LOG_ACTIVITY` puts the entry first with the old log after it, and leaves the contacts untouched |
| PhoneContext.OtherActionIsIdentity | src/context/PhoneContext.js:23-24 | an action whose type is none of the three handled ones returns the state unchanged |
| PhoneContext.ReduceAllLogNewestFirst | src/context/PhoneContext.js:29 | after any sequence of dispatches the log is the logged entries newest first, followed by the old log |
| PhoneContext.ReduceAllContactCount | src/context/PhoneContext.js:29 | after any sequence of dispatches there is one more contact per `ADD_CONTACT` and no other change in number |
| PhoneContext.ReduceAllFromInitial | src/context/PhoneContext.js:5-8 | from `initialState`, after any dispatches the log is exactly the logged entries newest first and there is one contact per `ADD_CONTACT` |

## Left out

- The readiness wait in `initialize` (src/services/TwilioService.ts:30-45) is a race between SDK listeners and a 10-second `setTimeout`. Only how it settles is modelled, as the `Readiness` input.
- `getAccessToken` and `generateClientSideToken` (src/services/TwilioService.ts:53-98) are left out: a `fetch`, then a fallback built from `Date.now`, `JSON.stringify` and `btoa`. Only a throw from them, or from `new Device(...)`, is modelled, as the `SetupFailed` input of `Initialize`. Its message is an input; the `'Unknown error'` text for a non-Error throw is not distinguished.
- All HTTP traffic and JSON parsing are left out. Each response is an abstract input: `SmsResponse`, `HistoryResponse`. The request bodies sent are not modelled.
- The record time `new Date()` is the parameter `now` of `SendSms`. Console logging is left out.
- Concurrency is left out. Every method runs atomically. An SDK event that arrives while `makeCall` awaits `connect` is modelled as arriving before or after it.
- Callbacks that call back into the service are not modelled.
- Registering a second callback is not distinguished from the first. `effects` logs everything delivered to whichever callback was registered.
- Only one device is modelled. A second `initialize` drops the old device without destroying it, and that device's listeners are not modelled.
- SDK events after `destroy` are not modelled. A device event arriving while no device is held changes nothing. A call event still reaches the listeners of any call ever placed.
- `Services.TwilioService.MakeCall` requires that `connect` return a Call object not seen before. This is the SDK's behaviour. A repeated object would get its listeners twice, and the model has no listener multiplicity.
- `Services.TwilioService.OnCallEvent`: an SDK call may raise `disconnect` after `hangup` has already disconnected it. That arrives as a separate event, which can report `ended` a second time.
- The SDK's own Call and Device behaviour is left out (for example, what `accept()` makes the call raise later). Only the commands issued are recorded.
- Rendering is left out, including the buttons disabled while a call is active. Each handler is modelled as if its button were pressed anyway.
- `alert` is modelled as the `Alert` result, and `onConnect` as the `Connect` result. `preventDefault` and the `showTokens` toggle are left out.
- The serverless handlers under netlify/functions and functions/ are not part of this model. Neither are the hooks (src/hooks), src/service/token.js, src/utils/csv.js, src/App.tsx, src/App.js, ActivityFeed, DialPad and ContactList.
- The shapes of `Contact` and `Entry` are taken from how ContactList and ActivityFeed use them.
- `handleNumberInput` takes any key string; the keypad only ever sends one of `0`-`9`, `*`, `#`.
