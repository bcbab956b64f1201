/**
 * The framework side of inbound SMS dispatch, as plain values: the intent an
 * inbound message is wrapped in, the typed extras it carries, and the
 * submission handed to the superclass `dispatch` (intent, required
 * permission, required app-op and optional result receiver).
 *
 * The string and integer constants are the Android framework's values
 * (`Telephony.Sms.Intents`, `Manifest.permission`, `AppOpsManager`,
 * `MSimConstants`).
 */
module SmsIntents {
  import opened Options
  import opened PortUri

  const SMS_RECEIVED_ACTION: string := "android.provider.Telephony.SMS_RECEIVED"
  const DATA_SMS_RECEIVED_ACTION: string := "android.intent.action.DATA_SMS_RECEIVED"
  const SMS_CB_RECEIVED_ACTION: string := "android.provider.Telephony.SMS_CB_RECEIVED"
  const SMS_EMERGENCY_CB_RECEIVED_ACTION: string := "android.provider.Telephony.SMS_EMERGENCY_CB_RECEIVED"
  const SMS_SERVICE_CATEGORY_PROGRAM_DATA_RECEIVED_ACTION: string :=
    "android.provider.Telephony.SMS_SERVICE_CATEGORY_PROGRAM_DATA_RECEIVED"

  const RECEIVE_SMS_PERMISSION: string := "android.permission.RECEIVE_SMS"
  const RECEIVE_EMERGENCY_BROADCAST_PERMISSION: string := "android.permission.RECEIVE_EMERGENCY_BROADCAST"

  const OP_RECEIVE_SMS: int := 16

  /** Extra keys. */
  const SUBSCRIPTION_KEY: string := "subscription"
  const PDUS_KEY: string := "pdus"
  const FORMAT_KEY: string := "format"
  const MESSAGE_KEY: string := "message"
  const SENDER_KEY: string := "sender"
  const PROGRAM_DATA_KEY: string := "program_data"

  /** One raw PDU, left undecoded. */
  type Pdu = seq<bv8>

  /** A decoded cell broadcast: opaque contents plus its emergency flag. */
  datatype SmsCbMessage = SmsCbMessage(isEmergencyMessage: bool, contents: seq<bv8>)

  /** One decoded service-category program-data record, left opaque. */
  datatype ProgramData = ProgramData(contents: seq<bv8>)

  /** The typed values an intent's extras bag holds. */
  datatype Value =
    | PdusValue(pdus: seq<Pdu>)
    | StringValue(str: string)
    | IntValue(n: int)
    | MessageValue(message: SmsCbMessage)
    | ProgramDataListValue(list: seq<ProgramData>)

  datatype Intent = Intent(action: string, data: Option<string>, extras: map<string, Value>)

  /** The result receiver passed along with program data, left opaque. */
  datatype ResultReceiver = ResultReceiver(id: nat)

  /** One call of the superclass `dispatch`. */
  datatype Submission = Submission(
    intent: Intent,
    permission: string,
    appOp: int,
    resultReceiver: Option<ResultReceiver>)

  /** The five delivery channels an inbound unit can be routed to. */
  datatype Kind =
    | StandardSms
    | PortAddressedSms
    | EmergencyBroadcast
    | NormalBroadcast
    | ServiceCategoryProgramData

  /** The intent action of each channel. */
  function Action(k: Kind): (a: string)
    ensures KindOfAction(a) == Some(k)
  {
    match k
    case StandardSms => SMS_RECEIVED_ACTION
    case PortAddressedSms => DATA_SMS_RECEIVED_ACTION
    case EmergencyBroadcast => SMS_EMERGENCY_CB_RECEIVED_ACTION
    case NormalBroadcast => SMS_CB_RECEIVED_ACTION
    case ServiceCategoryProgramData => SMS_SERVICE_CATEGORY_PROGRAM_DATA_RECEIVED_ACTION
  }

  /** The channel an intent action belongs to, if any. */
  function KindOfAction(a: string): Option<Kind> {
    if a == SMS_RECEIVED_ACTION then Some(StandardSms)
    else if a == DATA_SMS_RECEIVED_ACTION then Some(PortAddressedSms)
    else if a == SMS_EMERGENCY_CB_RECEIVED_ACTION then Some(EmergencyBroadcast)
    else if a == SMS_CB_RECEIVED_ACTION then Some(NormalBroadcast)
    else if a == SMS_SERVICE_CATEGORY_PROGRAM_DATA_RECEIVED_ACTION then Some(ServiceCategoryProgramData)
    else None
  }

  /** The permission a receiver must hold on each channel: only emergency broadcasts differ. */
  function RequiredPermission(k: Kind): string {
    if k == EmergencyBroadcast then RECEIVE_EMERGENCY_BROADCAST_PERMISSION else RECEIVE_SMS_PERMISSION
  }

  /** Stores one extra, replacing any earlier value under the same key (`Intent.putExtra`). */
  function PutExtra(i: Intent, key: string, v: Value): Intent {
    i.(extras := i.extras[key := v])
  }

  /** Reads one extra, as a receiver would. */
  function GetExtra(i: Intent, key: string): Option<Value> {
    if key in i.extras then Some(i.extras[key]) else None
  }

  /** The subscription an intent is tagged with: an integer extra under the subscription key. */
  function SubscriptionOf(i: Intent): Option<int> {
    match GetExtra(i, SUBSCRIPTION_KEY)
    case Some(IntValue(n)) => Some(n)
    case _ => None
  }

  /** The destination port named by an intent's data URI, if it has one. */
  function PortOf(i: Intent): Option<int32> {
    match i.data
    case Some(u) => ParsePort(u)
    case None => None
  }

  function KindOf(s: Submission): Option<Kind> {
    KindOfAction(s.intent.action)
  }

  /**
   * What every submission of the dispatcher satisfies: a known channel, the
   * channel's permission, app-op OP_RECEIVE_SMS, a subscription tag, a data
   * URI naming a port exactly on the port-addressed channel, and a result
   * receiver exactly on the program-data channel.
   */
  predicate WellFormed(s: Submission) {
    && KindOf(s).Some?
    && s.permission == RequiredPermission(KindOf(s).value)
    && s.appOp == OP_RECEIVE_SMS
    && SubscriptionOf(s.intent).Some?
    && (s.intent.data.Some? <==> KindOf(s) == Some(PortAddressedSms))
    && (KindOf(s) == Some(PortAddressedSms) ==> PortOf(s.intent).Some?)
    && (s.resultReceiver.Some? <==> KindOf(s) == Some(ServiceCategoryProgramData))
  }

  /**
   * On every well-formed submission the emergency-broadcast permission
   * appears exactly on the emergency channel, and the SMS permission on
   * every other channel.
   */
  lemma EmergencyPermissionOnlyOnEmergency(s: Submission)
    requires WellFormed(s)
    ensures s.permission == RECEIVE_EMERGENCY_BROADCAST_PERMISSION <==> KindOf(s) == Some(EmergencyBroadcast)
    ensures s.permission == RECEIVE_SMS_PERMISSION <==> KindOf(s) != Some(EmergencyBroadcast)
  {
  }
}
