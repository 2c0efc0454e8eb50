/**
 * The call-lifecycle coordinator of src/services/TwilioService.ts.
 *
 * The voice SDK (its Device and Call objects) and the HTTP endpoints are outside the model.
 * What the SDK reports back (the outcome of `connect`, call events, device events, HTTP
 * responses) arrives as method inputs. What the coordinator does outside itself (the commands it
 * issues to the SDK and what it hands to the two callbacks) is recorded in one ordered log.
 */
module Services {
  import opened Wrappers

  /** Identifies one SDK Call object. */
  type CallId = nat

  /** `CallStatus` of src/types/index.ts. */
  datatype CallStatus = Idle | Connecting | Ringing | InProgress | Ended | Failed

  datatype Direction = Inbound | Outbound

  datatype Credentials = Credentials(accountSid: string, authToken: string, phoneNumber: string)

  datatype CallRecord = CallRecord(
    id: string, to: string, from: string, status: string,
    direction: Direction, duration: Option<int>, timestamp: int)

  datatype MessageRecord = MessageRecord(
    id: string, to: string, from: string, body: string,
    direction: Direction, status: string, timestamp: int)

  /** What the coordinator asks of the SDK. */
  datatype SdkCommand =
    | Connect(to: string, from: string)   // device.connect({To, From})
    | Disconnect(call: CallId)            // call.disconnect()
    | Accept(call: CallId)                // call.accept()
    | Reject(call: CallId)                // call.reject()
    | DestroyDevice                       // device.destroy()

  /** How the awaited `device.connect(...)` settles: a new Call object, or a thrown error. */
  datatype ConnectOutcome = Connected(call: CallId) | ConnectFailed(message: string)

  /**
   * How `initialize` settles: `SetupFailed` when obtaining the token or constructing the Device
   * throws (before the device is assigned), otherwise how the readiness wait ends.
   */
  datatype Readiness = SetupFailed(message: string) | DeviceReady | DeviceFailed(message: string) | ReadyTimeout

  /** Events a Call object raises to the listeners `setupCallListeners` attached to it. */
  datatype CallEvent = CallAccept | CallDisconnect | CallCancel | CallError | CallRinging

  /** Events the Device raises to the listeners `setupDeviceListeners` attached to it. */
  datatype DeviceEvent = DeviceReadyEvent | DeviceErrorEvent | DeviceIncoming(call: CallId) | DeviceDisconnectEvent

  /** A promise that resolves, or rejects with an error message. */
  datatype Outcome = Done | Thrown(message: string)

  /** The response to the send-SMS request: a parsed JSON body, a non-2xx status, or a rejected fetch / unparsable body. */
  datatype SmsResponse = SmsAccepted(sid: string, status: string) | SmsRejected(statusText: string) | SmsUnreachable(message: string)

  /** The response to a history request; `list` is the `calls` / `messages` field of the body, absent when not there. */
  datatype HistoryResponse<T> = HistoryOk(list: Option<seq<T>>) | HistoryRejected(statusText: string) | HistoryUnreachable

  const DeviceNotInitialized := "Device not initialized"
  const InitializationTimeout := "Device initialization timeout"
  const InitializeFailurePrefix := "Failed to initialize Twilio: "
  const SendSmsFailurePrefix := "Failed to send SMS: "

  /** The SDK commands that name a call name one of the calls in `placed`. */
  predicate CommandAddresses(c: SdkCommand, placed: set<CallId>) {
    match c
    case Disconnect(id) => id in placed
    case Accept(id) => id in placed
    case Reject(id) => id in placed
    case _ => true
  }

  /**
   * One thing the coordinator does outside itself: a status handed to the status callback, an
   * incoming call handed to the incoming-call callback, or a command issued to the SDK.
   */
  datatype Effect = Emit(status: CallStatus) | Surface(call: CallId) | Command(command: SdkCommand)

  /** An effect the coordinator may produce: never `idle`, and only commands to calls in `placed`. */
  predicate EffectAllowed(e: Effect, placed: set<CallId>) {
    match e
    case Emit(s) => s != Idle
    case Surface(_) => true
    case Command(c) => CommandAddresses(c, placed)
  }

  /** The status a listener attached by `setupCallListeners` reports for each call event. */
  function EventStatus(event: CallEvent): CallStatus {
    match event
    case CallAccept => InProgress
    case CallDisconnect => Ended
    case CallCancel => Ended
    case CallError => Failed
    case CallRinging => Ringing
  }

  class TwilioService {
    const credentials: Credentials
    /** `device !== null`. */
    var hasDevice: bool
    var currentCall: Option<CallId>
    /** The calls `setupCallListeners` has attached listeners to, that is, every call `makeCall` connected. */
    var listened: set<CallId>
    var hasStatusCallback: bool
    var hasIncomingCallback: bool
    /** Everything handed to the callbacks and issued to the SDK, oldest first. */
    var effects: seq<Effect>

    /**
     * What the coordinator keeps true: the current call is always one it placed and listens to,
     * it never reports `idle`, and it only ever commands calls it placed itself.
     */
    ghost predicate Valid()
      reads this
    {
      && (currentCall.Some? ==> currentCall.value in listened)
      && (forall i :: 0 <= i < |effects| ==> EffectAllowed(effects[i], listened))
    }

    /** What `this.callStatusCallback?.(s)` delivers: `s` exactly when a callback is registered. */
    function Notify(s: CallStatus): (r: seq<Effect>)
      reads this
      ensures r == [Emit(s)] <==> hasStatusCallback
      ensures r == [] <==> !hasStatusCallback
    {
      if hasStatusCallback then [Emit(s)] else []
    }

    constructor (credentials: Credentials)
      ensures Valid()
      ensures this.credentials == credentials
      ensures !hasDevice && currentCall == None && listened == {}
      ensures !hasStatusCallback && !hasIncomingCallback
      ensures effects == []
    {
      this.credentials := credentials;
      hasDevice := false;
      currentCall := None;
      listened := {};
      hasStatusCallback := false;
      hasIncomingCallback := false;
      effects := [];
    }

    method SetCallStatusCallback()
      requires Valid()
      modifies this
      ensures Valid()
      ensures hasStatusCallback
      ensures hasDevice == old(hasDevice) && currentCall == old(currentCall) && listened == old(listened)
      ensures hasIncomingCallback == old(hasIncomingCallback) && effects == old(effects)
    {
      hasStatusCallback := true;
    }

    method SetIncomingCallCallback()
      requires Valid()
      modifies this
      ensures Valid()
      ensures hasIncomingCallback
      ensures hasDevice == old(hasDevice) && currentCall == old(currentCall) && listened == old(listened)
      ensures hasStatusCallback == old(hasStatusCallback) && effects == old(effects)
    {
      hasIncomingCallback := true;
    }

    /**
     * `initialize`: a failure while obtaining the token or constructing the Device is rethrown and
     * leaves everything as it was. Otherwise the device is assigned and its listeners attached
     * before the readiness wait, so it stays assigned whatever the wait's outcome. A device error
     * during the wait reaches the error listener too, which reports `failed`.
     */
    method Initialize(readiness: Readiness) returns (r: Outcome)
      requires Valid()
      modifies this
      ensures Valid()
      ensures readiness.SetupFailed? ==> unchanged(this)
      ensures !readiness.SetupFailed? ==> hasDevice
      ensures r == match readiness
                   case SetupFailed(m) => Thrown(InitializeFailurePrefix + m)
                   case DeviceReady => Done
                   case DeviceFailed(m) => Thrown(InitializeFailurePrefix + m)
                   case ReadyTimeout => Thrown(InitializeFailurePrefix + InitializationTimeout)
      ensures effects == old(effects) + (if readiness.DeviceFailed? then old(Notify(Failed)) else [])
      ensures currentCall == old(currentCall) && listened == old(listened)
      ensures hasStatusCallback == old(hasStatusCallback) && hasIncomingCallback == old(hasIncomingCallback)
    {
      if readiness.SetupFailed? {
        return Thrown(InitializeFailurePrefix + readiness.message);
      }
      hasDevice := true;
      match readiness {
        case DeviceReady =>
          r := Done;
        case DeviceFailed(m) =>
          effects := effects + Notify(Failed);
          r := Thrown(InitializeFailurePrefix + m);
        case ReadyTimeout =>
          r := Thrown(InitializeFailurePrefix + InitializationTimeout);
      }
    }

    /**
     * `makeCall`: without a device it throws before doing anything. Otherwise it reports
     * `connecting`, then asks the device to connect, and either makes the new call current (and
     * listens to it) or reports `failed` and rethrows, leaving `currentCall` as it was.
     */
    method MakeCall(phoneNumber: string, connect: ConnectOutcome) returns (r: Outcome)
      requires Valid()
      requires connect.Connected? ==> connect.call !in listened  // the SDK returns a new Call object
      modifies this
      ensures Valid()
      ensures !old(hasDevice) ==> r == Thrown(DeviceNotInitialized) && unchanged(this)
      ensures old(hasDevice) ==>
                effects == old(effects) + old(Notify(Connecting))
                           + [Command(Connect(phoneNumber, credentials.phoneNumber))]
                           + (if connect.ConnectFailed? then old(Notify(Failed)) else [])
      ensures old(hasDevice) && connect.Connected? ==>
                && r == Done
                && currentCall == Some(connect.call)
                && listened == old(listened) + {connect.call}
      ensures old(hasDevice) && connect.ConnectFailed? ==>
                && r == Thrown(connect.message)
                && currentCall == old(currentCall)
                && listened == old(listened)
      ensures hasDevice == old(hasDevice)
      ensures hasStatusCallback == old(hasStatusCallback) && hasIncomingCallback == old(hasIncomingCallback)
    {
      if !hasDevice {
        return Thrown(DeviceNotInitialized);
      }
      effects := effects + Notify(Connecting);
      effects := effects + [Command(Connect(phoneNumber, credentials.phoneNumber))];
      match connect {
        case Connected(call) =>
          currentCall := Some(call);
          listened := listened + {call};
          r := Done;
        case ConnectFailed(m) =>
          effects := effects + Notify(Failed);
          r := Thrown(m);
      }
    }

    /**
     * A listener attached by `setupCallListeners` firing. The listeners of every call ever placed
     * stay attached, and the clearing ones set `currentCall` to absent whichever call is current.
     * A call without listeners reaches no handler.
     */
    method OnCallEvent(call: CallId, event: CallEvent)
      requires Valid()
      modifies this
      ensures Valid()
      ensures call !in listened ==> unchanged(this)
      ensures call in listened ==> effects == old(effects) + old(Notify(EventStatus(event)))
      ensures call in listened && (event.CallDisconnect? || event.CallCancel? || event.CallError?) ==> currentCall == None
      ensures event.CallAccept? || event.CallRinging? ==> currentCall == old(currentCall)
      ensures hasDevice == old(hasDevice) && listened == old(listened)
      ensures hasStatusCallback == old(hasStatusCallback) && hasIncomingCallback == old(hasIncomingCallback)
    {
      if call !in listened {
        return;
      }
      match event {
        case CallAccept =>
          effects := effects + Notify(InProgress);
        case CallDisconnect =>
          effects := effects + Notify(Ended);
          currentCall := None;
        case CallCancel =>
          effects := effects + Notify(Ended);
          currentCall := None;
        case CallError =>
          effects := effects + Notify(Failed);
          currentCall := None;
        case CallRinging =>
          effects := effects + Notify(Ringing);
      }
    }

    /**
     * A listener attached by `setupDeviceListeners` firing; without a device there is nothing to
     * raise events. Only `error` and `incoming` do more than log, and neither touches `currentCall`.
     */
    method OnDeviceEvent(event: DeviceEvent)
      requires Valid()
      modifies this
      ensures Valid()
      ensures effects == old(effects) + (
                if !old(hasDevice) then []
                else if event.DeviceErrorEvent? then old(Notify(Failed))
                else if event.DeviceIncoming? && old(hasIncomingCallback) then [Surface(event.call)]
                else [])
      ensures hasDevice == old(hasDevice) && currentCall == old(currentCall) && listened == old(listened)
      ensures hasStatusCallback == old(hasStatusCallback) && hasIncomingCallback == old(hasIncomingCallback)
    {
      if !hasDevice {
        return;
      }
      match event {
        case DeviceReadyEvent =>
        case DeviceErrorEvent =>
          effects := effects + Notify(Failed);
        case DeviceIncoming(call) =>
          if hasIncomingCallback {
            effects := effects + [Surface(call)];
          }
        case DeviceDisconnectEvent =>
      }
    }

    /** `hangup`: disconnects and forgets the current call, then reports `ended`; a no-op without one. */
    method Hangup()
      requires Valid()
      modifies this
      ensures Valid()
      ensures old(currentCall).None? ==> unchanged(this)
      ensures old(currentCall).Some? ==>
                && currentCall == None
                && effects == old(effects) + [Command(Disconnect(old(currentCall).value))] + old(Notify(Ended))
      ensures hasDevice == old(hasDevice) && listened == old(listened)
      ensures hasStatusCallback == old(hasStatusCallback) && hasIncomingCallback == old(hasIncomingCallback)
    {
      if currentCall.Some? {
        effects := effects + [Command(Disconnect(currentCall.value))];
        currentCall := None;
        effects := effects + Notify(Ended);
      }
    }

    /** `answerCall`: accepts the current call, if any; no local state changes. */
    method AnswerCall()
      requires Valid()
      modifies this
      ensures Valid()
      ensures effects == old(effects) + (if old(currentCall).Some? then [Command(Accept(old(currentCall).value))] else [])
      ensures hasDevice == old(hasDevice) && currentCall == old(currentCall) && listened == old(listened)
      ensures hasStatusCallback == old(hasStatusCallback) && hasIncomingCallback == old(hasIncomingCallback)
    {
      if currentCall.Some? {
        effects := effects + [Command(Accept(currentCall.value))];
      }
    }

    /** `rejectCall`: rejects and forgets the current call, if any, without reporting a status. */
    method RejectCall()
      requires Valid()
      modifies this
      ensures Valid()
      ensures currentCall == None
      ensures effects == old(effects) + (if old(currentCall).Some? then [Command(Reject(old(currentCall).value))] else [])
      ensures hasDevice == old(hasDevice) && listened == old(listened)
      ensures hasStatusCallback == old(hasStatusCallback) && hasIncomingCallback == old(hasIncomingCallback)
    {
      if currentCall.Some? {
        effects := effects + [Command(Reject(currentCall.value))];
        currentCall := None;
      }
    }

    /** `isReady`: whether a device is held (it says nothing about the readiness wait). */
    function IsReady(): (r: bool)
      reads this
      ensures r <==> hasDevice
    {
      hasDevice
    }

    /**
     * `destroy`: disconnects the current call, then destroys the device, when present, and drops
     * both afterwards. It reports no status, and on a destroyed service it changes nothing.
     */
    method Destroy()
      requires Valid()
      modifies this
      ensures Valid()
      ensures !hasDevice && currentCall == None && !IsReady()
      ensures effects == old(effects)
                         + (if old(currentCall).Some? then [Command(Disconnect(old(currentCall).value))] else [])
                         + (if old(hasDevice) then [Command(DestroyDevice)] else [])
      ensures !old(hasDevice) && old(currentCall).None? ==> unchanged(this)
      ensures listened == old(listened)
      ensures hasStatusCallback == old(hasStatusCallback) && hasIncomingCallback == old(hasIncomingCallback)
    {
      if currentCall.Some? {
        effects := effects + [Command(Disconnect(currentCall.value))];
      }
      if hasDevice {
        effects := effects + [Command(DestroyDevice)];
      }
      hasDevice := false;
      currentCall := None;
    }

    /**
     * The record `sendSMS` builds from a successful response; a non-2xx response throws with its
     * status text, and a rejected fetch or unparsable body is rethrown.
     */
    function SendSms(to: string, message: string, response: SmsResponse, now: int): (r: Result<MessageRecord>)
      ensures r.Success? <==> response.SmsAccepted?
      ensures r.Success? ==>
                && r.value.direction == Outbound
                && r.value.to == to && r.value.body == message
                && r.value.from == credentials.phoneNumber
                && r.value.id == response.sid && r.value.status == response.status
                && r.value.timestamp == now
      ensures response.SmsRejected? ==> r == Failure(SendSmsFailurePrefix + response.statusText)
      ensures response.SmsUnreachable? ==> r == Failure(response.message)
    {
      match response
      case SmsAccepted(sid, status) =>
        Success(MessageRecord(sid, to, credentials.phoneNumber, message, Outbound, status, now))
      case SmsRejected(statusText) =>
        Failure(SendSmsFailurePrefix + statusText)
      case SmsUnreachable(m) =>
        Failure(m)
    }
  }

  /** `getCallHistory`: never throws; any failure, or a body without `calls`, gives the empty list. */
  function CallHistory(response: HistoryResponse<CallRecord>): (r: seq<CallRecord>)
    ensures !response.HistoryOk? ==> r == []
    ensures response.HistoryOk? && response.list.None? ==> r == []
    ensures response.HistoryOk? && response.list.Some? ==> r == response.list.value
  {
    match response
    case HistoryOk(calls) => calls.GetOr([])
    case _ => []
  }

  /** `getMessageHistory`: never throws; any failure, or a body without `messages`, gives the empty list. */
  function MessageHistory(response: HistoryResponse<MessageRecord>): (r: seq<MessageRecord>)
    ensures !response.HistoryOk? ==> r == []
    ensures response.HistoryOk? && response.list.None? ==> r == []
    ensures response.HistoryOk? && response.list.Some? ==> r == response.list.value
  {
    match response
    case HistoryOk(messages) => messages.GetOr([])
    case _ => []
  }

  /**
   * An outbound call that is answered and hung up: `connecting` is reported before the SDK is
   * asked to connect, and the disconnect is issued before `ended` is reported.
   */
  method OutboundCallScenario() returns (trace: seq<Effect>, current: Option<CallId>)
    ensures trace == [Emit(Connecting), Command(Connect("+15551234567", "+15550000000")),
                      Emit(InProgress), Command(Disconnect(7)), Emit(Ended)]
    ensures current == None
  {
    var s := new TwilioService(Credentials("AC123", "secret", "+15550000000"));
    s.SetCallStatusCallback();
    var ready := s.Initialize(DeviceReady);
    var placed := s.MakeCall("+15551234567", Connected(7));
    s.OnCallEvent(7, CallAccept);
    s.Hangup();
    trace, current := s.effects, s.currentCall;
  }

  /**
   * An incoming call is handed to the incoming-call callback but never becomes the current call,
   * so rejecting it afterwards issues no command and reports nothing.
   */
  method IncomingRejectScenario() returns (trace: seq<Effect>, current: Option<CallId>)
    ensures trace == [Surface(9)]
    ensures current == None
  {
    var s := new TwilioService(Credentials("AC123", "secret", "+15550000000"));
    s.SetCallStatusCallback();
    s.SetIncomingCallCallback();
    var ready := s.Initialize(DeviceReady);
    s.OnDeviceEvent(DeviceIncoming(9));
    s.RejectCall();
    trace, current := s.effects, s.currentCall;
  }

  /**
   * The listeners of a superseded call stay attached: when the first of two placed calls
   * disconnects, the second, still live, call is no longer current.
   */
  method SupersededCallScenario() returns (current: Option<CallId>, trace: seq<Effect>)
    ensures current == None
    ensures trace == [Emit(Connecting), Command(Connect("+15551111111", "+15550000000")),
                      Emit(Connecting), Command(Connect("+15552222222", "+15550000000")), Emit(Ended)]
  {
    var s := new TwilioService(Credentials("AC123", "secret", "+15550000000"));
    s.SetCallStatusCallback();
    var ready := s.Initialize(DeviceReady);
    var first := s.MakeCall("+15551111111", Connected(1));
    assert s.effects == [Emit(Connecting), Command(Connect("+15551111111", "+15550000000"))];
    var second := s.MakeCall("+15552222222", Connected(2));
    assert s.effects == [Emit(Connecting), Command(Connect("+15551111111", "+15550000000")),
                         Emit(Connecting), Command(Connect("+15552222222", "+15550000000"))];
    s.OnCallEvent(1, CallDisconnect);
    current, trace := s.currentCall, s.effects;
  }

  /** A readiness wait that times out still leaves a device behind: `isReady()` answers true. */
  method FailedInitializeScenario() returns (thrown: Outcome, ready: bool)
    ensures thrown == Thrown(InitializeFailurePrefix + InitializationTimeout)
    ensures ready
  {
    var s := new TwilioService(Credentials("AC123", "secret", "+15550000000"));
    thrown := s.Initialize(ReadyTimeout);
    ready := s.IsReady();
  }

  /**
   * A token or Device construction failure on a first `initialize` throws before any device is
   * assigned: `isReady()` answers false and nothing was reported.
   */
  method FailedSetupScenario() returns (thrown: Outcome, ready: bool, trace: seq<Effect>)
    ensures thrown == Thrown(InitializeFailurePrefix + "Invalid character")
    ensures !ready && trace == []
  {
    var s := new TwilioService(Credentials("AC123", "secret", "+15550000000"));
    s.SetCallStatusCallback();
    thrown := s.Initialize(SetupFailed("Invalid character"));
    ready, trace := s.IsReady(), s.effects;
  }

  /** `destroy` twice: the second call issues no command, and the service stays not ready. */
  method DestroyTwiceScenario() returns (trace: seq<Effect>, ready: bool)
    ensures trace == [Command(Connect("+15551234567", "+15550000000")), Command(Disconnect(3)), Command(DestroyDevice)]
    ensures !ready
  {
    var s := new TwilioService(Credentials("AC123", "secret", "+15550000000"));
    var init := s.Initialize(DeviceReady);
    var placed := s.MakeCall("+15551234567", Connected(3));
    s.Destroy();
    s.Destroy();
    trace, ready := s.effects, s.IsReady();
  }
}
