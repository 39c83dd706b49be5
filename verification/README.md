# MeChat push-notification envelope, modelled in Dafny

MeChat's backend has one callable cloud function, `sendPushNotification`
(`functions/index.js`). It takes a request record and reshapes it into a
push-provider message, the envelope. The envelope has these parts:

- the target device token;
- a `{title, body}` notification block;
- a string-to-string `data` block;
- an Android override block (`sound`, `channelId`);
- an APNs override block (`aps.sound`).

The function then sends the envelope once. A successful send returns
`{success: true}`. Any failure of the send is thrown as the single error
`('internal', 'Failed to send notification')`.

The model has three modules:

- `Envelope` (`envelope.dfy`): the request and message datatypes, the
  constants, JavaScript's `x || ''` defaulting on optional strings,
  the data block (eight fixed fields with `extraData` spread on top), the
  two sound selections, the whole envelope, and the try/catch result
  mapping. The provider's send is an input, `send: Message -> SendOutcome`.
- `Assembly` (`assembly.dfy`): the data block built the way JavaScript
  evaluates the object literal. The eight named properties come first.
  Then the own keys of `extraData` are copied one at a time, each
  overwriting a property of the same name. This is proved equal to the
  functional data block.
- `EnvelopeProperties` (`properties.dfy`): a decoder for the data block
  with a round-trip lemma, a key-by-key reference definition of the data
  block, and lemmas relating several requests or several send outcomes.

The request's `type` field is called `kind` in the model, because `type`
is a reserved word in Dafny. The data key is still `"type"`.

The Android `channelId` is the constant `"chat_channel_v1"` for every
request (functions/index.js:39); there is no separate call channel.

## Model

| member | source | states |
|---|---|---|
| Envelope.OrEmpty | functions/index.js:31-33 | `x \|\| ''` on an optional string gives the value when it is present and non-empty, and `""` exactly when it is absent or empty |
| Envelope.ExtraOf | functions/index.js:34 | an absent `extraData` spreads no keys; a present one spreads its own map |
| Envelope.BaseData | functions/index.js:25-33 | before the spread, the data block has exactly the eight reserved keys |
| Envelope.BuildData | functions/index.js:25-35 | the data block's keys are exactly the reserved keys plus the `extraData` keys; every `extraData` entry keeps its own value, reserved names included; each of `type`, `senderId`, `senderName`, `chatId`, `callId` is copied verbatim unless `extraData` overrides it; `callType`, `senderEmail`, `senderImage` hold the supplied non-empty value, and `""` exactly when it is absent or empty, unless overridden |
| Envelope.AndroidSound | functions/index.js:38 | the Android sound is `"ringtone"` if and only if `type == "call"`, and `"default"` otherwise |
| Envelope.ApnsSound | functions/index.js:45 | the APNs sound is `"ringtone.caf"` if and only if `type == "call"`, and `"default"` otherwise |
| Envelope.BuildPayload | functions/index.js:22-49 | the envelope's token is `targetToken`; its notification is `{title, body}` unchanged; its data is the data block; its Android channel is always `"chat_channel_v1"`; both platform sounds ring exactly when `type == "call"` |
| Envelope.Respond | functions/index.js:51-57 | a successful send yields exactly `{success: true}`; a failed send yields exactly the `internal` error with message "Failed to send notification" |
| Envelope.Dispatch | functions/index.js:22-57 | the handler returns `{success: true}` if and only if sending this request's envelope succeeds, and throws the fixed `internal` error if and only if that send fails |
| Assembly.AssembleData | functions/index.js:25-35 | defining the eight fields and then copying the `extraData` keys one by one, in any order, yields exactly the functional data block |
| EnvelopeProperties.DataAlwaysDecodes | functions/index.js:25-35 | every data block holds all eight reserved keys, whatever `extraData` contains |
| EnvelopeProperties.MetadataRoundTrip | functions/index.js:25-35 | when `extraData` reuses no reserved name, decoding the data block gives back the request's metadata; an absent optional field and an empty one both read back as absent |
| EnvelopeProperties.DataMatchesReference | functions/index.js:25-35 | for every key, the data block holds it if and only if the key-by-key reference gives it a value, and then holds that value (`extraData` first, then the eight fields) |
| EnvelopeProperties.NoStrayKeys | functions/index.js:25-35 | a data key that does not come from `extraData` is one of the eight reserved fields |
| EnvelopeProperties.ChannelIndependentOfRequest | functions/index.js:39 | any two requests get the same Android channel |
| EnvelopeProperties.PlatformsAgreeOnRinging | functions/index.js:38-45 | Android rings if and only if APNs rings |
| EnvelopeProperties.SoundIgnoresExtraType | functions/index.js:25-45 | an `extraData` entry `type: "call"` changes `data.type` to `"call"` but leaves both sounds at `"default"` when the request's own `type` is not `"call"` |
| EnvelopeProperties.FailureCauseHidden | functions/index.js:54-57 | two failed sends with different causes give the same result |
| EnvelopeProperties.SuccessCarriesNoPayload | functions/index.js:52-53 | the provider's message id does not reach the caller |
| EnvelopeProperties.DispatchDependsOnlyOnOutcomeKind | functions/index.js:51-57 | two providers that agree on whether this envelope's send succeeds give the same handler result |

## Left out

- Android and Gradle build scripts (`android/app/build.gradle.kts`, `android/build.gradle.kts`): declarative build configuration with no behaviour to verify.
- `admin.initializeApp()` and `admin.messaging().send(payload)` (functions/index.js:4, 52): a foreign SDK and a network call. Sending is an opaque `send` parameter returning success or failure. The model applies `send` exactly once by construction.
- `console.error` logging (functions/index.js:55): an I/O side effect.
- The `functions.https.onCall` wrapper, the unused `context` argument, and the construction of the `HttpsError` object (functions/index.js:6, 56): framework plumbing. The thrown error is the plain value `HttpsError(code, message)`.
- Envelope.OrEmpty: JavaScript falsiness is modelled only for a string or an absent value. `0`, `false`, `null` and non-string values are not modelled.
- Envelope.Request: `type`, `senderId`, `senderName`, `chatId` and `callId` are always strings. JavaScript would copy an absent one into the data block as `undefined`. The provider's check that data values are strings is part of the SDK and is not modelled.
- Envelope.Request: `targetToken`, `title` and `body` are always strings. JavaScript would put an absent one into the envelope as `undefined`; what the provider then does is part of the SDK and is not modelled.
- Envelope.Request: `extraData` is a string-to-string map or absent. JavaScript would spread a string or an array as index keys (`...'ab'` gives `{0: 'a', 1: 'b'}`) and a number or a boolean as nothing; those shapes are not modelled.
- Envelope.Request: a request that is itself null or undefined makes the destructuring (functions/index.js:7-20) throw before the `try`, so that failure is not the fixed `internal` error. The model always has a request record and does not model this failure.
- Envelope.Request: `extraData` values are strings. Non-string values, which the provider would reject, are not modelled.
- Envelope.BuildData: the data block is a map, so the insertion order of JavaScript object properties is not modelled. The provider treats the block as an unordered map.
