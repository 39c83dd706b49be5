/**
 Properties of the envelope that relate several requests or several calls:
 what a receiver can read back from the data block, which parts of the
 envelope depend on which inputs, and that failures are indistinguishable.
 */
module EnvelopeProperties {
  import opened Envelope

  /* ---------------------------------------------------------------------- */
  /* Reading the data block back                                            */
  /* ---------------------------------------------------------------------- */

  /** The request metadata a receiving device can recover from the data
      block. An optional field is `None` when it was absent or empty. */
  datatype Metadata = Metadata(
    kind: string,
    senderId: string,
    senderName: string,
    chatId: string,
    callId: string,
    callType: Option<string>,
    senderEmail: Option<string>,
    senderImage: Option<string>
  )

  /** Absent and empty collapse to `None`: the envelope cannot tell them apart. */
  function Normalize(o: Option<string>): (r: Option<string>)
    ensures r.Some? <==> Truthy(o)
    ensures r.Some? ==> r == o
  {
    if Truthy(o) then o else None
  }

  /** The metadata of a request as far as the envelope preserves it. */
  function MetadataOf(req: Request): Metadata {
    Metadata(req.kind, req.senderId, req.senderName, req.chatId, req.callId,
             Normalize(req.callType), Normalize(req.senderEmail), Normalize(req.senderImage))
  }

  /** Reads an optional field: the empty string means absent. */
  function ReadOptional(s: string): (r: Option<string>)
    ensures r.None? <==> s == ""
    ensures r.Some? ==> r.value == s
  {
    if s == "" then None else Some(s)
  }

  /** Decodes a data block; fails exactly when a reserved key is missing. */
  function DecodeMetadata(d: map<string, string>): (r: Option<Metadata>)
    ensures r.Some? <==> ReservedKeys <= d.Keys
  {
    if ReservedKeys <= d.Keys then
      Some(Metadata(d["type"], d["senderId"], d["senderName"], d["chatId"], d["callId"],
                    ReadOptional(d["callType"]), ReadOptional(d["senderEmail"]),
                    ReadOptional(d["senderImage"])))
    else None
  }

  /** Every envelope carries a decodable data block, whatever `extraData` holds. */
  lemma DataAlwaysDecodes(req: Request)
    ensures DecodeMetadata(BuildPayload(req).data).Some?
  {
  }

  /** When `extraData` does not reuse a reserved name, the data block gives the
      request's metadata back, with absent and empty optional fields both
      read as absent. */
  lemma MetadataRoundTrip(req: Request)
    requires ExtraOf(req).Keys !! ReservedKeys
    ensures DecodeMetadata(BuildPayload(req).data) == Some(MetadataOf(req))
  {
  }

  /* ---------------------------------------------------------------------- */
  /* Pointwise reference for the data block                                 */
  /* ---------------------------------------------------------------------- */

  /** The value of key `k` in the data block, stated key by key with
      `extraData` taking precedence. */
  function DataEntry(req: Request, k: string): Option<string> {
    if k in ExtraOf(req) then Some(ExtraOf(req)[k])
    else if k == "type" then Some(req.kind)
    else if k == "senderId" then Some(req.senderId)
    else if k == "senderName" then Some(req.senderName)
    else if k == "chatId" then Some(req.chatId)
    else if k == "callId" then Some(req.callId)
    else if k == "callType" then Some(OrEmpty(req.callType))
    else if k == "senderEmail" then Some(OrEmpty(req.senderEmail))
    else if k == "senderImage" then Some(OrEmpty(req.senderImage))
    else None
  }

  /** The data block holds key `k` exactly when the reference gives it a
      value, and then holds that value. */
  lemma DataMatchesReference(req: Request, k: string)
    ensures k in BuildData(req) <==> DataEntry(req, k).Some?
    ensures k in BuildData(req) ==> BuildData(req)[k] == DataEntry(req, k).value
  {
  }

  /** A key outside `extraData` that the data block holds is a reserved one. */
  lemma NoStrayKeys(req: Request, k: string)
    requires k in BuildPayload(req).data && k !in ExtraOf(req)
    ensures k in ReservedKeys
  {
  }

  /* ---------------------------------------------------------------------- */
  /* What depends on what                                                   */
  /* ---------------------------------------------------------------------- */

  /** Every request gets the same Android channel. */
  lemma ChannelIndependentOfRequest(a: Request, b: Request)
    ensures BuildPayload(a).android.notification.channelId
         == BuildPayload(b).android.notification.channelId
  {
  }

  /** The two platforms agree on whether to ring. */
  lemma PlatformsAgreeOnRinging(req: Request)
    ensures BuildPayload(req).android.notification.sound == AndroidRingtone
        <==> BuildPayload(req).apns.payload.aps.sound == ApnsRingtone
  {
  }

  /** The sounds follow the request's own `type` field, not the data block:
      an `extraData` entry named "type" changes `data.type` but not the
      sound. */
  lemma SoundIgnoresExtraType(req: Request)
    requires "type" in ExtraOf(req) && ExtraOf(req)["type"] == CallKind
    requires req.kind != CallKind
    ensures BuildPayload(req).data["type"] == CallKind
    ensures BuildPayload(req).android.notification.sound == DefaultSound
    ensures BuildPayload(req).apns.payload.aps.sound == DefaultSound
  {
  }

  /* ---------------------------------------------------------------------- */
  /* The caller-visible result                                              */
  /* ---------------------------------------------------------------------- */

  /** Callers cannot tell one failure cause from another. */
  lemma FailureCauseHidden(c1: string, c2: string)
    ensures Respond(SendFailed(c1)) == Respond(SendFailed(c2))
  {
  }

  /** The message id of a successful send does not reach the caller. */
  lemma SuccessCarriesNoPayload(id1: string, id2: string)
    ensures Respond(Sent(id1)) == Respond(Sent(id2)) == Returned(true)
  {
  }

  /** The result depends only on whether the send of this request's envelope
      succeeded: two providers that agree on that give the same result. */
  lemma DispatchDependsOnlyOnOutcomeKind(req: Request, s1: Message -> SendOutcome, s2: Message -> SendOutcome)
    requires s1(BuildPayload(req)).Sent? == s2(BuildPayload(req)).Sent?
    ensures Dispatch(req, s1) == Dispatch(req, s2)
  {
  }
}
