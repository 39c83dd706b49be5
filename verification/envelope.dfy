/**
 The push-notification envelope built by the `sendPushNotification` callable
 function (functions/index.js), and the mapping of the provider's send outcome
 to the value the caller sees.

 The handler is a pure reshaping of a request record into a provider message:
 the token and the notification block are copied, the data block collects the
 request metadata (three optional fields defaulted to the empty string) with
 `extraData` spread on top, and two platform override blocks choose a sound
 from whether the request is a call.
 */
module Envelope {

  datatype Option<+T> = None | Some(value: T)

  /* ---------------------------------------------------------------------- */
  /* Input                                                                  */
  /* ---------------------------------------------------------------------- */

  /** The request object the callable function receives. `kind` is the
      request's `type` field (a reserved word in Dafny). Fields read with
      `x || ''` are optional; `extraData` may be absent. */
  datatype Request = Request(
    targetToken: string,
    title: string,
    body: string,
    kind: string,
    senderId: string,
    chatId: string,
    callId: string,
    callType: Option<string>,
    senderName: string,
    senderEmail: Option<string>,
    senderImage: Option<string>,
    extraData: Option<map<string, string>>
  )

  /* ---------------------------------------------------------------------- */
  /* Output: the provider message                                           */
  /* ---------------------------------------------------------------------- */

  datatype NotificationBlock = NotificationBlock(title: string, body: string)

  datatype AndroidNotification = AndroidNotification(sound: string, channelId: string)
  datatype AndroidConfig = AndroidConfig(notification: AndroidNotification)

  datatype Aps = Aps(sound: string)
  datatype ApnsPayload = ApnsPayload(aps: Aps)
  datatype ApnsConfig = ApnsConfig(payload: ApnsPayload)

  datatype Message = Message(
    token: string,
    notification: NotificationBlock,
    data: map<string, string>,
    android: AndroidConfig,
    apns: ApnsConfig
  )

  /* ---------------------------------------------------------------------- */
  /* Constants                                                              */
  /* ---------------------------------------------------------------------- */

  const CallKind: string := "call"
  const DefaultSound: string := "default"
  const AndroidRingtone: string := "ringtone"
  const ApnsRingtone: string := "ringtone.caf"
  /** The only Android channel the handler ever uses, for calls and chats alike. */
  const ChatChannel: string := "chat_channel_v1"

  /** The eight data-block keys the handler always writes before the spread. */
  const ReservedKeys: set<string> :=
    {"type", "senderId", "senderName", "chatId", "callId",
     "callType", "senderEmail", "senderImage"}

  /* ---------------------------------------------------------------------- */
  /* Defaulting: `x || ''`                                                  */
  /* ---------------------------------------------------------------------- */

  /** JavaScript truthiness restricted to an optional string: absent and the
      empty string are falsy, every other string is truthy. */
  predicate Truthy(o: Option<string>) {
    o.Some? && o.value != ""
  }

  /** `o || ''`: the value itself when it is truthy, the empty string
      otherwise. The result is never absent. */
  function OrEmpty(o: Option<string>): (r: string)
    ensures Truthy(o) ==> r == o.value
    ensures !Truthy(o) ==> r == ""
    ensures r == "" <==> !Truthy(o)
  {
    match o
    case Some(s) => if s != "" then s else ""
    case None => ""
  }

  /** `...extraData` spreads nothing when `extraData` is absent. */
  function ExtraOf(req: Request): (m: map<string, string>)
    ensures req.extraData.None? ==> m == map[]
    ensures req.extraData.Some? ==> m == req.extraData.value
  {
    match req.extraData
    case Some(e) => e
    case None => map[]
  }

  /* ---------------------------------------------------------------------- */
  /* The data block                                                         */
  /* ---------------------------------------------------------------------- */

  /** The eight fields of the object literal, before the spread. */
  function BaseData(req: Request): (d: map<string, string>)
    ensures d.Keys == ReservedKeys
  {
    map[
      "type" := req.kind,
      "senderId" := req.senderId,
      "senderName" := req.senderName,
      "chatId" := req.chatId,
      "callId" := req.callId,
      "callType" := OrEmpty(req.callType),
      "senderEmail" := OrEmpty(req.senderEmail),
      "senderImage" := OrEmpty(req.senderImage)
    ]
  }

  /** The data block: the eight fields, then `extraData` spread on top so that
      its keys win on collision. */
  function BuildData(req: Request): (d: map<string, string>)
    // exactly the reserved keys and the extra keys, nothing else
    ensures d.Keys == ReservedKeys + ExtraOf(req).Keys
    // every extra entry arrives with its own value, reserved names included
    ensures forall k :: k in ExtraOf(req) ==> k in d && d[k] == ExtraOf(req)[k]
    // the pass-through fields are copied verbatim unless overridden
    ensures "type" !in ExtraOf(req) ==> d["type"] == req.kind
    ensures "senderId" !in ExtraOf(req) ==> d["senderId"] == req.senderId
    ensures "senderName" !in ExtraOf(req) ==> d["senderName"] == req.senderName
    ensures "chatId" !in ExtraOf(req) ==> d["chatId"] == req.chatId
    ensures "callId" !in ExtraOf(req) ==> d["callId"] == req.callId
    // the optional fields carry a truthy value, and "" exactly when falsy
    ensures "callType" !in ExtraOf(req) ==>
              (Truthy(req.callType) ==> d["callType"] == req.callType.value) &&
              (d["callType"] == "" <==> !Truthy(req.callType))
    ensures "senderEmail" !in ExtraOf(req) ==>
              (Truthy(req.senderEmail) ==> d["senderEmail"] == req.senderEmail.value) &&
              (d["senderEmail"] == "" <==> !Truthy(req.senderEmail))
    ensures "senderImage" !in ExtraOf(req) ==>
              (Truthy(req.senderImage) ==> d["senderImage"] == req.senderImage.value) &&
              (d["senderImage"] == "" <==> !Truthy(req.senderImage))
  {
    BaseData(req) + ExtraOf(req)
  }

  /* ---------------------------------------------------------------------- */
  /* Platform overrides                                                     */
  /* ---------------------------------------------------------------------- */

  /** Strict equality with the literal "call". */
  predicate IsCall(kind: string) {
    kind == CallKind
  }

  function AndroidSound(kind: string): (s: string)
    ensures s == AndroidRingtone <==> IsCall(kind)
    ensures s == DefaultSound <==> !IsCall(kind)
  {
    if kind == CallKind then AndroidRingtone else DefaultSound
  }

  function ApnsSound(kind: string): (s: string)
    ensures s == ApnsRingtone <==> IsCall(kind)
    ensures s == DefaultSound <==> !IsCall(kind)
  {
    if kind == CallKind then ApnsRingtone else DefaultSound
  }

  /* ---------------------------------------------------------------------- */
  /* The whole envelope                                                     */
  /* ---------------------------------------------------------------------- */

  function BuildPayload(req: Request): (m: Message)
    ensures m.token == req.targetToken
    ensures m.notification == NotificationBlock(req.title, req.body)
    ensures m.data == BuildData(req)
    // the channel never depends on the request
    ensures m.android.notification.channelId == ChatChannel
    // both platforms ring exactly for calls
    ensures m.android.notification.sound == AndroidRingtone <==> IsCall(req.kind)
    ensures m.apns.payload.aps.sound == ApnsRingtone <==> IsCall(req.kind)
    ensures m.android.notification.sound == DefaultSound <==> !IsCall(req.kind)
    ensures m.apns.payload.aps.sound == DefaultSound <==> !IsCall(req.kind)
  {
    Message(
      req.targetToken,
      NotificationBlock(req.title, req.body),
      BuildData(req),
      AndroidConfig(AndroidNotification(AndroidSound(req.kind), ChatChannel)),
      ApnsConfig(ApnsPayload(Aps(ApnsSound(req.kind))))
    )
  }

  /* ---------------------------------------------------------------------- */
  /* Sending and the caller-visible result                                  */
  /* ---------------------------------------------------------------------- */

  /** What the provider's send does: it resolves with a message id, or fails
      for some cause (bad token, network, quota, malformed payload, ...). */
  datatype SendOutcome = Sent(messageId: string) | SendFailed(cause: string)

  datatype HttpsError = HttpsError(code: string, message: string)

  /** What the callable returns to its caller: the object `{success: b}`, or
      a thrown error. */
  datatype CallResult = Returned(success: bool) | Threw(error: HttpsError)

  const InternalError: HttpsError := HttpsError("internal", "Failed to send notification")

  /** The try/catch around the send. */
  function Respond(outcome: SendOutcome): (r: CallResult)
    ensures outcome.Sent? <==> r == Returned(true)
    ensures outcome.SendFailed? <==> r == Threw(InternalError)
    ensures r.Returned? ==> r.success
  {
    match outcome
    case Sent(_) => Returned(true)
    case SendFailed(_) => Threw(InternalError)
  }

  /** The whole handler: build the envelope, hand it to `send` once, and map
      the outcome. */
  function Dispatch(req: Request, send: Message -> SendOutcome): (r: CallResult)
    ensures r == Returned(true) <==> send(BuildPayload(req)).Sent?
    ensures r == Threw(InternalError) <==> send(BuildPayload(req)).SendFailed?
    ensures r.Threw? ==> r.error.code == "internal"
  {
    Respond(send(BuildPayload(req)))
  }
}
