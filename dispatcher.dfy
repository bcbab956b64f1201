/**
 * The multi-SIM CDMA inbound-SMS dispatcher: each entry point wraps an
 * already-decoded inbound unit in an intent, tags it with the phone's
 * subscription, and hands it to `dispatch` together with the permission and
 * app-op a receiver must hold. The submission each entry point produces is
 * given by a function of its inputs; the class methods build the same
 * submission step by step and append it to the dispatch log.
 */
module MSimCdmaDispatch {
  import opened Options
  import opened PortUri
  import opened SmsIntents

  /** The decoded CDMA SMS that carries program data; a null list is `None`. */
  datatype CdmaSmsMessage = CdmaSmsMessage(
    originatingAddress: string,
    programDataList: Option<seq<ProgramData>>)

  /** The extras shared by both SMS paths: the PDUs, their format and the subscription. */
  function SmsExtras(pdus: seq<Pdu>, format: string, subscription: int): map<string, Value> {
    map[PDUS_KEY := PdusValue(pdus), FORMAT_KEY := StringValue(format),
        SUBSCRIPTION_KEY := IntValue(subscription)]
  }

  /** What `dispatchPdus` submits for a standard (not port-addressed) SMS. */
  function PdusSubmission(pdus: seq<Pdu>, format: string, subscription: int): (s: Submission)
    ensures WellFormed(s) && KindOf(s) == Some(StandardSms)
    ensures s.intent.data == None
    ensures s.intent.extras.Keys == {PDUS_KEY, FORMAT_KEY, SUBSCRIPTION_KEY}
    ensures GetExtra(s.intent, PDUS_KEY) == Some(PdusValue(pdus))
    ensures GetExtra(s.intent, FORMAT_KEY) == Some(StringValue(format))
    ensures SubscriptionOf(s.intent) == Some(subscription)
    ensures s.permission == RECEIVE_SMS_PERMISSION && s.appOp == OP_RECEIVE_SMS
    ensures s.resultReceiver == None
  {
    Submission(
      Intent(Action(StandardSms), None, SmsExtras(pdus, format, subscription)),
      RECEIVE_SMS_PERMISSION, OP_RECEIVE_SMS, None)
  }

  /**
   * What `dispatchPortAddressedPdus` submits: the standard submission's
   * extras, permission, app-op and (absent) receiver, under the data-SMS
   * action and with a data URI from which the port reads back.
   */
  function PortAddressedPdusSubmission(pdus: seq<Pdu>, format: string, port: int32, subscription: int): (s: Submission)
    ensures WellFormed(s) && KindOf(s) == Some(PortAddressedSms)
    ensures s.intent.data == Some(DataUri(port))
    ensures PortOf(s.intent) == Some(port)
    ensures var standard := PdusSubmission(pdus, format, subscription);
      && s.intent.extras == standard.intent.extras
      && s.permission == standard.permission
      && s.appOp == standard.appOp
      && s.resultReceiver == standard.resultReceiver
  {
    ParsePortOfDataUri(port);
    Submission(
      Intent(Action(PortAddressedSms), Some(DataUri(port)), SmsExtras(pdus, format, subscription)),
      RECEIVE_SMS_PERMISSION, OP_RECEIVE_SMS, None)
  }

  /**
   * What `dispatchBroadcastMessage` submits: an emergency message goes out on
   * the emergency channel under the emergency permission, every other
   * message on the normal channel under the SMS permission.
   */
  function BroadcastMessageSubmission(message: SmsCbMessage, subscription: int): (s: Submission)
    ensures WellFormed(s)
    ensures KindOf(s) == Some(if message.isEmergencyMessage then EmergencyBroadcast else NormalBroadcast)
    ensures s.intent.action == SMS_EMERGENCY_CB_RECEIVED_ACTION <==> message.isEmergencyMessage
    ensures s.intent.action == SMS_CB_RECEIVED_ACTION <==> !message.isEmergencyMessage
    ensures s.permission == RECEIVE_EMERGENCY_BROADCAST_PERMISSION <==> message.isEmergencyMessage
    ensures s.permission == RECEIVE_SMS_PERMISSION <==> !message.isEmergencyMessage
    ensures s.intent.data == None
    ensures s.intent.extras.Keys == {MESSAGE_KEY, SUBSCRIPTION_KEY}
    ensures GetExtra(s.intent, MESSAGE_KEY) == Some(MessageValue(message))
    ensures SubscriptionOf(s.intent) == Some(subscription)
    ensures s.appOp == OP_RECEIVE_SMS && s.resultReceiver == None
  {
    var extras := map[MESSAGE_KEY := MessageValue(message), SUBSCRIPTION_KEY := IntValue(subscription)];
    if message.isEmergencyMessage then
      Submission(Intent(Action(EmergencyBroadcast), None, extras),
        RequiredPermission(EmergencyBroadcast), OP_RECEIVE_SMS, None)
    else
      Submission(Intent(Action(NormalBroadcast), None, extras),
        RequiredPermission(NormalBroadcast), OP_RECEIVE_SMS, None)
  }

  /**
   * What `handleServiceCategoryProgramData` submits: nothing when the
   * program-data list is null; otherwise one submission carrying the sender
   * and the list unchanged (an empty list included), with the result receiver.
   */
  function ProgramDataSubmissions(sms: CdmaSmsMessage, subscription: int, receiver: ResultReceiver): (r: seq<Submission>)
    ensures |r| <= 1
    ensures r == [] <==> sms.programDataList == None
    ensures r != [] ==>
      && WellFormed(r[0]) && KindOf(r[0]) == Some(ServiceCategoryProgramData)
      && r[0].intent.data == None
      && r[0].intent.extras.Keys == {SUBSCRIPTION_KEY, SENDER_KEY, PROGRAM_DATA_KEY}
      && GetExtra(r[0].intent, SENDER_KEY) == Some(StringValue(sms.originatingAddress))
      && GetExtra(r[0].intent, PROGRAM_DATA_KEY) == Some(ProgramDataListValue(sms.programDataList.value))
      && SubscriptionOf(r[0].intent) == Some(subscription)
      && r[0].permission == RECEIVE_SMS_PERMISSION && r[0].appOp == OP_RECEIVE_SMS
      && r[0].resultReceiver == Some(receiver)
  {
    match sms.programDataList
    case None => []
    case Some(list) =>
      [Submission(
        Intent(Action(ServiceCategoryProgramData), None,
          map[SUBSCRIPTION_KEY := IntValue(subscription),
              SENDER_KEY := StringValue(sms.originatingAddress),
              PROGRAM_DATA_KEY := ProgramDataListValue(list)]),
        RECEIVE_SMS_PERMISSION, OP_RECEIVE_SMS, Some(receiver))]
  }

  /** The phone a dispatcher serves; its subscription is read afresh on every call. */
  class Phone {
    var subscription: int

    constructor (subscription: int)
      ensures this.subscription == subscription
    {
      this.subscription := subscription;
    }
  }

  class MSimCdmaSmsDispatcher {
    const phone: Phone
    /** What `getFormat()` answers. */
    const format: string
    /** The receiver of program-data results (`mScpResultsReceiver`). */
    const scpResultsReceiver: ResultReceiver
    /** Every `dispatch` call made so far, oldest first. */
    var submissions: seq<Submission>

    ghost predicate Valid()
      reads this
    {
      forall i | 0 <= i < |submissions| :: WellFormed(submissions[i])
    }

    constructor (phone: Phone, format: string, scpResultsReceiver: ResultReceiver)
      ensures Valid() && submissions == []
      ensures this.phone == phone && this.format == format
      ensures this.scpResultsReceiver == scpResultsReceiver
    {
      this.phone := phone;
      this.format := format;
      this.scpResultsReceiver := scpResultsReceiver;
      submissions := [];
    }

    /** The superclass `dispatch`: hands one submission to the delivery channel. */
    method Dispatch(intent: Intent, permission: string, appOp: int, resultReceiver: Option<ResultReceiver>)
      requires Valid()
      requires WellFormed(Submission(intent, permission, appOp, resultReceiver))
      modifies this`submissions
      ensures submissions == old(submissions) + [Submission(intent, permission, appOp, resultReceiver)]
      ensures Valid()
    {
      submissions := submissions + [Submission(intent, permission, appOp, resultReceiver)];
    }

    method DispatchPdus(pdus: seq<Pdu>)
      requires Valid()
      modifies this`submissions
      ensures submissions == old(submissions) + [PdusSubmission(pdus, format, phone.subscription)]
      ensures Valid()
    {
      var intent := Intent(SMS_RECEIVED_ACTION, None, map[]);
      intent := PutExtra(intent, PDUS_KEY, PdusValue(pdus));
      intent := PutExtra(intent, FORMAT_KEY, StringValue(format));
      intent := PutExtra(intent, SUBSCRIPTION_KEY, IntValue(phone.subscription));
      Dispatch(intent, RECEIVE_SMS_PERMISSION, OP_RECEIVE_SMS, None);
    }

    method DispatchPortAddressedPdus(pdus: seq<Pdu>, port: int32)
      requires Valid()
      modifies this`submissions
      ensures submissions == old(submissions) + [PortAddressedPdusSubmission(pdus, format, port, phone.subscription)]
      ensures Valid()
    {
      var uri := DATA_URI_PREFIX + DecimalString(port as int);
      ParsePortOfDataUri(port);
      var intent := Intent(DATA_SMS_RECEIVED_ACTION, Some(uri), map[]);
      intent := PutExtra(intent, PDUS_KEY, PdusValue(pdus));
      intent := PutExtra(intent, FORMAT_KEY, StringValue(format));
      intent := PutExtra(intent, SUBSCRIPTION_KEY, IntValue(phone.subscription));
      Dispatch(intent, RECEIVE_SMS_PERMISSION, OP_RECEIVE_SMS, None);
    }

    method DispatchBroadcastMessage(message: SmsCbMessage)
      requires Valid()
      modifies this`submissions
      ensures submissions == old(submissions) + [BroadcastMessageSubmission(message, phone.subscription)]
      ensures Valid()
    {
      if message.isEmergencyMessage {
        var intent := Intent(SMS_EMERGENCY_CB_RECEIVED_ACTION, None, map[]);
        intent := PutExtra(intent, MESSAGE_KEY, MessageValue(message));
        intent := PutExtra(intent, SUBSCRIPTION_KEY, IntValue(phone.subscription));
        Dispatch(intent, RECEIVE_EMERGENCY_BROADCAST_PERMISSION, OP_RECEIVE_SMS, None);
      } else {
        var intent := Intent(SMS_CB_RECEIVED_ACTION, None, map[]);
        intent := PutExtra(intent, MESSAGE_KEY, MessageValue(message));
        intent := PutExtra(intent, SUBSCRIPTION_KEY, IntValue(phone.subscription));
        Dispatch(intent, RECEIVE_SMS_PERMISSION, OP_RECEIVE_SMS, None);
      }
    }

    method HandleServiceCategoryProgramData(sms: CdmaSmsMessage)
      requires Valid()
      modifies this`submissions
      ensures submissions == old(submissions) + ProgramDataSubmissions(sms, phone.subscription, scpResultsReceiver)
      ensures Valid()
    {
      var programDataList := sms.programDataList;
      if programDataList == None {
        return;
      }
      var intent := Intent(SMS_SERVICE_CATEGORY_PROGRAM_DATA_RECEIVED_ACTION, None, map[]);
      intent := PutExtra(intent, SUBSCRIPTION_KEY, IntValue(phone.subscription));
      intent := PutExtra(intent, SENDER_KEY, StringValue(sms.originatingAddress));
      intent := PutExtra(intent, PROGRAM_DATA_KEY, ProgramDataListValue(programDataList.value));
      Dispatch(intent, RECEIVE_SMS_PERMISSION, OP_RECEIVE_SMS, Some(scpResultsReceiver));
    }
  }

  /**
   * On the log of a dispatcher, an entry carries the emergency-broadcast
   * permission exactly when it is an emergency broadcast.
   */
  lemma LoggedEmergencyPermissionOnlyOnEmergency(d: MSimCdmaSmsDispatcher)
    requires d.Valid()
    ensures forall i | 0 <= i < |d.submissions| ::
      (d.submissions[i].permission == RECEIVE_EMERGENCY_BROADCAST_PERMISSION
       <==> KindOf(d.submissions[i]) == Some(EmergencyBroadcast))
  {
  }

  /**
   * The dispatcher keeps nothing between calls, so the same message
   * dispatched twice yields two equal submissions, neither merged nor lost.
   */
  method DispatchPdusTwice(d: MSimCdmaSmsDispatcher, pdus: seq<Pdu>)
    requires d.Valid()
    modifies d`submissions
    ensures d.Valid()
    ensures var s := PdusSubmission(pdus, d.format, d.phone.subscription);
      d.submissions == old(d.submissions) + [s, s]
  {
    d.DispatchPdus(pdus);
    d.DispatchPdus(pdus);
  }
}
