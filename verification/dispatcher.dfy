/** The outbox dispatcher: on a new `fcmMessages` record it builds the gateway
    envelope, sends it, and writes the delivery outcome back onto the record.
    The gateway is not called here; its answer is an input. */
module Dispatcher {
  import opened Common
  import opened Outbox

  /** Delivery hints for Apple devices. */
  datatype ApnsHints = ApnsHints(sound: string, badge: int)

  /** Delivery hints for Android devices. */
  datatype AndroidHints = AndroidHints(priority: string, sound: string, channelId: string)

  /** What the gateway is asked to deliver. */
  datatype Envelope = Envelope(token: string, notice: Notice, data: Data, apns: ApnsHints, android: AndroidHints)

  /** Static platform policy, the same for every message. */
  const Apns: ApnsHints := ApnsHints("default", 1)
  const Android: AndroidHints := AndroidHints("high", "default", "climetry_channel")

  /** The gateway's answer to one send: a message id, or a failure with its message. */
  datatype GatewayOutcome = Delivered(messageId: string) | Rejected(message: string)

  /** The partial update the dispatcher writes onto its outbox record. */
  datatype DeliveryWrite = MarkSent(sentAt: Timestamp) | MarkError(message: string)

  /** One run of the dispatcher: the envelope handed to the gateway, if any,
      and the write made to the record, if any. */
  datatype Dispatch = Dispatch(sent: Option<Envelope>, write: Option<DeliveryWrite>)

  /** The gateway envelope for a record: its token, notice and data, an empty
      mapping when the record has none, and the static platform hints. */
  function EnvelopeOf(rec: OutboxRecord): (e: Envelope)
    ensures e.token == rec.token && e.notice == rec.notice
    ensures rec.data.Some? ==> e.data == rec.data.value
    ensures rec.data.None? ==> e.data == map[]
    ensures e.apns == ApnsHints("default", 1)
    ensures e.android == AndroidHints("high", "default", "climetry_channel")
  {
    Envelope(rec.token, rec.notice, rec.data.GetOr(map[]), Apns, Android)
  }

  /** The dispatcher for one created outbox record, `outcome` being the
      gateway's answer should it be asked. */
  function SendFcmNotification(rec: OutboxRecord, outcome: GatewayOutcome): (d: Dispatch)
    ensures rec.sent ==> d.sent.None? && d.write.None?
    ensures !rec.sent ==> d.sent == Some(EnvelopeOf(rec)) && d.write.Some?
    ensures !rec.sent && outcome.Delivered? ==> d.write == Some(MarkSent(ServerTimestamp))
    ensures !rec.sent && outcome.Rejected? ==> d.write == Some(MarkError(outcome.message))
  {
    if rec.sent then Dispatch(None, None)
    else
      var write := match outcome
        case Delivered(_) => MarkSent(ServerTimestamp)
        case Rejected(message) => MarkError(message);
      Dispatch(Some(EnvelopeOf(rec)), Some(write))
  }

  /** The record after the store merges a delivery write into it: each write
      touches only its own fields. */
  function ApplyDelivery(rec: OutboxRecord, w: DeliveryWrite): (rec': OutboxRecord)
    ensures rec'.token == rec.token && rec'.notice == rec.notice && rec'.data == rec.data
    ensures rec'.createdAt == rec.createdAt
    ensures w.MarkSent? ==> rec'.sent && rec'.sentAt == Some(w.sentAt) && rec'.error == rec.error
    ensures w.MarkError? ==> rec'.sent == rec.sent && rec'.sentAt == rec.sentAt && rec'.error == Some(w.message)
  {
    match w
    case MarkSent(at) => rec.(sent := true, sentAt := Some(at))
    case MarkError(message) => rec.(error := Some(message))
  }

  /** The record as it stands after one dispatcher run. */
  function AfterDispatch(rec: OutboxRecord, outcome: GatewayOutcome): OutboxRecord {
    var d := SendFcmNotification(rec, outcome);
    if d.write.Some? then ApplyDelivery(rec, d.write.value) else rec
  }

  /** A record already marked sent is left alone: no gateway call, no write. */
  lemma SentGuard(rec: OutboxRecord, outcome: GatewayOutcome)
    requires rec.sent
    ensures SendFcmNotification(rec, outcome) == Dispatch(None, None)
    ensures AfterDispatch(rec, outcome) == rec
  {
  }

  /** Success is terminal: the record becomes `Sent`, and a re-delivered
      trigger for it sends nothing and writes nothing, whatever the gateway
      would answer. */
  lemma DeliveredIsTerminal(rec: OutboxRecord, id: string, later: GatewayOutcome)
    requires !rec.sent
    ensures StateOf(AfterDispatch(rec, Delivered(id))) == Sent
    ensures SendFcmNotification(AfterDispatch(rec, Delivered(id)), later) == Dispatch(None, None)
  {
  }

  /** Failure records only the gateway's message and leaves `sent` false, so
      the record is `Failed` yet a re-delivered trigger sends the very same
      envelope again. */
  lemma RejectedIsResentOnRedelivery(rec: OutboxRecord, message: string, later: GatewayOutcome)
    requires !rec.sent
    ensures var rec' := AfterDispatch(rec, Rejected(message));
      StateOf(rec') == Failed && rec'.error == Some(message) && !rec'.sent
    ensures SendFcmNotification(AfterDispatch(rec, Rejected(message)), later).sent
      == Some(EnvelopeOf(rec))
  {
  }

  /** The platform hints never depend on the record or the gateway's answer. */
  lemma HintsAreStatic(a: OutboxRecord, b: OutboxRecord, oa: GatewayOutcome, ob: GatewayOutcome)
    requires !a.sent && !b.sent
    ensures var ea := SendFcmNotification(a, oa).sent.value;
      var eb := SendFcmNotification(b, ob).sent.value;
      ea.apns == eb.apns && ea.android == eb.android
  {
  }

  /** A dispatcher run never moves a record back to `Pending`: `Sent` stays
      `Sent`, a record that leaves `Pending` lands in `Sent` or `Failed`, and a
      `Failed` record, its `sent` flag still false, is sent again and may still
      become `Sent`. */
  lemma DeliveryStateMonotone(rec: OutboxRecord, outcome: GatewayOutcome)
    ensures StateOf(rec) == Sent ==> StateOf(AfterDispatch(rec, outcome)) == Sent
    ensures StateOf(rec) == Pending ==> StateOf(AfterDispatch(rec, outcome)) != Pending
    ensures StateOf(rec) == Pending && outcome.Delivered? ==> StateOf(AfterDispatch(rec, outcome)) == Sent
    ensures StateOf(rec) == Pending && outcome.Rejected? ==> StateOf(AfterDispatch(rec, outcome)) == Failed
    ensures StateOf(rec) == Failed && outcome.Delivered? ==> StateOf(AfterDispatch(rec, outcome)) == Sent
    ensures StateOf(rec) == Failed && outcome.Rejected? ==>
      StateOf(AfterDispatch(rec, outcome)) == Failed && AfterDispatch(rec, outcome).error == Some(outcome.message)
  {
  }
}
