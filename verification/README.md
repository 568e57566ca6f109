# Climetry push-notification pipeline, modelled in Dafny

This project models the Cloud Functions back end of Climetry, found in `functions/index.js`. That file turns domain events into push notifications. Five *watchers* react to store changes. Four react to created documents and one reacts to a deleted document:

- friend requests;
- event invitations;
- activity updates;
- generic notifications;
- deleted activities (the one deletion trigger).

Each watcher finds the recipient's push token and appends a record to the `fcmMessages` outbox. Four watchers build a Portuguese title and body for it; the generic-notification watcher queues the `title` and `body` stored on its own document. Four watchers read the token from the `users` collection. The generic-notification watcher reads it from its own document. Some watchers also write an idempotency marker back onto the triggering document. A *dispatcher* reacts to each new outbox record. It hands the record to the push gateway and writes the outcome back onto the record.

In the model, every handler is a pure function. The store reads become inputs: a `users` map from user id to profile, and the gateway's answer. The store writes become outputs: the records appended and the partial update written back. Sequential re-delivery of a trigger is modelled as three steps: run the handler, merge its update into the document, and run it again.

Modules:

- `Common`: optional fields and the JavaScript coercions the handlers rely on. `x || d` on strings treats the empty string as falsy. `${x}` of a missing field renders as `undefined`.
- `Outbox`: outbox records, their delivery state, token resolution and the append shape.
- `Payloads`: the templates, plus the two lookup tables (activity type → emoji, role → label) and their default buckets.
- `Dispatcher`: `sendFCMNotification`.
- `Watchers`: `notifyFriendRequest`, `notifyEventInvitation`, `notifyActivityUpdate` and `sendNotification`.
- `Deletion`: `notifyActivityDeleted`. It is written as the loop it is and proved equal to a filter-then-map reference definition.
- `Pipeline`: watchers and dispatcher composed.

Where the code and the intended design differ, the model follows the code, with one exception. The exception is the lookup defect recorded under "## Findings": the invitation watcher queues the notice built with the corrected lookups. The other differences:

- A gateway failure writes only `error`. `sent` stays false, so a re-delivered trigger sends the record again (`Dispatcher.RejectedIsResentOnRedelivery`). A `Failed` record is therefore not terminal.
- The friend-request watcher has no marker and never writes to its document. Re-delivery queues a duplicate.
- The generic-notification watcher reads the token from its own document, not from `users`.

## Model

| member | source | states |
|---|---|---|
| `Outbox.Enqueue` | functions/index.js:82-96 | An appended record carries the resolved token, the payload and its data, a creation stamp, and no delivery fields: it is `Pending` |
| `Outbox.ResolveToken` | functions/index.js:68-77 | A token is found exactly when the profile document exists and its `fcmToken` is present and non-empty; the token returned is that field |
| `Payloads.TypeEmoji` | functions/index.js:138-147 | The emoji is always one of the table's icons: a listed activity type gets its own, any other or missing type gets the icon of `other` |
| `Payloads.RoleText` | functions/index.js:150-155 | The label is always one of the table's labels: a listed role gets its own, any other or missing role gets the label of `participant` |
| `Payloads.EmojiFallback` | functions/index.js:138-147 | Every activity type outside the table, missing included, yields the same calendar icon as `other` |
| `Payloads.RoleFallback` | functions/index.js:150-155 | Every role outside the table, missing included, yields `participante`, the label of `participant` |
| `Payloads.EmojiTableInjective` | functions/index.js:138-146 | Distinct listed activity types get distinct icons, so only `other` shares the fallback icon |
| `Payloads.ObjectLiteralLookup` | functions/index.js:138-155 | The lookup as written: a key naming an inherited object member yields that member's rendering, and only keys in neither the table nor the inherited members fall back |
| `Payloads.AsWrittenAgreesOffPrototype` | functions/index.js:138-155 | On every key that is not an inherited member's name, the as-written lookups agree with the intended ones |
| `Payloads.TypeEmojiAsWritten` | functions/index.js:138-147 | As written, a type naming an inherited object member yields that member's rendering; every other type, missing included, yields the corrected emoji |
| `Payloads.RoleTextAsWritten` | functions/index.js:150-155 | As written, a role naming an inherited object member yields that member's rendering; every other role, missing included, yields the corrected label |
| `Payloads.TypeEmojiAsWrittenMissesFallback` | functions/index.js:138-147 | As written, the unlisted type `constructor` does not get the `other` icon |
| `Payloads.RoleTextAsWrittenMissesFallback` | functions/index.js:150-155 | As written, the unlisted role `toString` does not get the `participant` label |
| `Payloads.FriendRequestNotice` | functions/index.js:84-87 | Fixed title; the body names the sender when the name is non-empty, otherwise `Alguém quer ser seu amigo` |
| `Payloads.FriendRequestData` | functions/index.js:88-93 | Routing data holds the type, the request id and the sender name (empty when missing), plus the sender id exactly when present |
| `Payloads.InvitationNotice` | functions/index.js:138-162 | A listed activity type puts its own table icon before ` Convite para Evento`, any other or missing type the calendar icon; a listed role puts its table label in the body, any other or missing role `participante`; the body quotes the activity title (corrected lookups) |
| `Payloads.InvitationNoticeAsWritten` | functions/index.js:138-162 | As written, a type naming an inherited object member puts that member's rendering in the title, and a role naming one puts it in the body; in every other case the title, respectively the body, is the corrected notice's |
| `Payloads.InvitationNoticeAgreesOffPrototype` | functions/index.js:138-162 | The as-written and corrected invitation notices coincide unless the type or the role names an inherited object member |
| `Payloads.InvitationNoticeAsWrittenDiffers` | functions/index.js:138-161 | With the type `constructor`, the as-written invitation title differs from the queued one |
| `Payloads.InvitationData` | functions/index.js:164-169 | Routing data holds the type and, each exactly when present, the activity id, title and raw role, and nothing else |
| `Payloads.UpdateNotice` | functions/index.js:220-223 | A present activity title follows the memo emoji and `Atualização: `; a missing one renders as `undefined` there; the body is the update's message, absent when it is |
| `Payloads.CancelledNotice` | functions/index.js:318-321 | Fixed cancellation title; the body quotes a present activity title, or `undefined` when it is missing, and names the organiser as canceller |
| `Payloads.InvitationNoticeFallbacks` | functions/index.js:138-162 | With an unknown type and role, the invitation notice is the one for an `other` activity offered to a `participant`, titled with the calendar icon |
| `Payloads.InvitationNoticeUsesTables` | functions/index.js:138-162 | With a listed type and role, the title carries that type's icon and the body carries that role's label and the quoted title |
| `Payloads.UpdateData` | functions/index.js:224-227 | Routing data holds the type and, exactly when present, the activity id, and nothing else |
| `Payloads.CancelledData` | functions/index.js:322-326 | Routing data holds the type, the deleted document's id and, exactly when present, its title |
| `Dispatcher.EnvelopeOf` | functions/index.js:15-37 | The envelope carries the record's token and notice, its data or the empty mapping when absent, and the fixed Apple and Android hints |
| `Dispatcher.SendFcmNotification` | functions/index.js:9-55 | A record already sent gets no gateway call and no write; otherwise its envelope is sent; success writes only the sent mark, and failure writes only the gateway's message |
| `Dispatcher.ApplyDelivery` | functions/index.js:44-52 | The success write sets `sent` and `sentAt` and nothing else; the failure write sets `error` and leaves `sent` unchanged |
| `Dispatcher.SentGuard` | functions/index.js:13 | A record with `sent` true is left exactly as it was |
| `Dispatcher.DeliveredIsTerminal` | functions/index.js:13-47 | After a success the record is `Sent`, and a re-delivered trigger sends and writes nothing whatever the gateway would answer |
| `Dispatcher.RejectedIsResentOnRedelivery` | functions/index.js:13-53 | After a failure the record is `Failed` with the gateway's message and `sent` still false, and a re-delivered trigger sends the same envelope again |
| `Dispatcher.HintsAreStatic` | functions/index.js:22-36 | Any two dispatched records get identical platform hints, whatever their content or the gateway's answer |
| `Dispatcher.DeliveryStateMonotone` | functions/index.js:39-53 | A run leaves `Sent` as `Sent`, moves `Pending` to `Sent` on success and to `Failed` on failure, and moves `Failed` to `Sent` on a later success, so `Failed` is not terminal |
| `Watchers.NotifyFriendRequest` | functions/index.js:58-101 | At most one record is queued, and one is queued exactly when the recipient has a token: that token, pending, with the friend-request notice and data; nothing is ever written back |
| `Watchers.FriendRequestRedeliveryDuplicates` | functions/index.js:58-101 | Without a marker, re-delivering a friend request queues a second, identical record |
| `Watchers.ApplyProcessed` | functions/index.js:127-131 | The marker write sets `processed` and its stamp, and replaces `error` only when it carries one |
| `Watchers.NotifyEventInvitation` | functions/index.js:104-183 | A processed invitation produces nothing; with no token, no record and a processed mark carrying `No FCM token found`; otherwise one pending record with the participant's token, then a processed mark without an error |
| `Watchers.InvitationIdempotent` | functions/index.js:107-178 | After one run the invitation is processed and only its marker changed; a second run, even once a token has appeared, queues and writes nothing |
| `Watchers.NotifyActivityUpdate` | functions/index.js:186-241 | The same guard, no-token and success discipline as invitations, with the update's title and its message as body |
| `Watchers.ActivityUpdateIdempotent` | functions/index.js:189-236 | After one run the update is processed and only its marker changed; a second run queues and writes nothing |
| `Watchers.SendNotification` | functions/index.js:244-288 | Only a `pending` document is handled; with no token it is marked `failed` with `No FCM token`; otherwise its own title, body and data (empty when absent) are queued under its token and it is marked `sent` |
| `Watchers.ApplyStatus` | functions/index.js:259-283 | The status write changes only the status and its own fields; the token, title, body and data are untouched |
| `Watchers.NotificationIdempotent` | functions/index.js:247-283 | After one run the status is no longer `pending`, and a second run queues and writes nothing |
| `Watchers.NonPendingStatusIgnored` | functions/index.js:248 | Any status other than `pending`, missing included, leaves the document as it was and queues nothing |
| `Deletion.Recipients` | functions/index.js:301-313 | Never more recipients than listed ids, and every recipient is not the owner and has a token |
| `Deletion.Cancellation` | functions/index.js:316-329 | Each cancellation record is pending, with the participant's token, the cancellation notice and the deleted activity's routing data |
| `Deletion.NotifyActivityDeleted` | functions/index.js:291-335 | The loop over `participantIds` queues exactly the reference fan-out: one cancellation per notified participant, in list order |
| `Deletion.RecipientsAppend` | functions/index.js:303-330 | The fan-out over a concatenated list is the fan-out of its first part followed by that of the rest, so list order is kept |
| `Deletion.RecipientsExactly` | functions/index.js:303-313 | An id is notified exactly when it is listed, is not the owner and has a token |
| `Deletion.OwnerNeverNotified` | functions/index.js:305 | The owner never receives a cancellation |
| `Deletion.SkippedParticipantChangesNothing` | functions/index.js:312-313 | Removing a listed, well-formed participant id that has no token (or is the owner) changes no one else's cancellation |
| `Deletion.NoParticipantsNoRecords` | functions/index.js:301 | A missing participant list queues nothing |
| `Deletion.OwnerFirstScenario` | functions/index.js:301-330 | For the list `[owner, a, b]` with `a` and `b` holding tokens, exactly `a`'s then `b`'s cancellation is queued |
| `Pipeline.QueuedRecordIsSentAsQueued` | functions/index.js:15-53 | A queued record is dispatched with exactly its queued token, notice and data, and ends `Sent` on success and `Failed` on failure |
| `Pipeline.FriendRequestEndToEnd` | functions/index.js:82-96 | A request from Ana (u2) to u1, who holds `tok1`, yields one record, delivered as `Ana quer ser seu amigo` with the request's routing data |
| `Pipeline.InvitationFailureIsNotRetried` | functions/index.js:158-178 | The queued invitation reaches the gateway with its notice and data; a rejection leaves the record `Failed` with the gateway's message, and the invitation, marked processed without an error, queues nothing on re-delivery |
| `Pipeline.CancellationsAreSentAsQueued` | functions/index.js:316-329 | Every queued cancellation reaches the gateway with the cancellation notice and the activity's routing data |

## Left out

- Firebase Admin SDK calls are not performed. Document reads become the `users` map, gateway sends become a `GatewayOutcome` input, and `add`/`update` become returned records and write values.
- Server timestamps are the opaque marker `ServerTimestamp`; no clock is modelled.
- `console.log` and `console.error` output is left out. It has no effect on the store.
- `admin.initializeApp()` and `setGlobalOptions({maxInstances: 10})` are left out. They are runtime configuration.
- Concurrent or duplicate delivery of the same trigger is left out, and so is the crash window between queuing a record and writing its marker. Re-delivery is modelled only as sequential re-application.
- Failures of store writes are left out. So is the dispatcher's catch of a failing success write, which would then record an error.
- Thrown errors from malformed documents are left out: a recipient id that is missing, empty or contains `/` passed to `doc()`, and an outbox record without a `notification` object. Missing ids and objects are typed as present. Every id is an opaque key into `users`, so the model assumes well-formed ids: non-empty and without `/`.
- Watchers.NotifyEventInvitation: for an empty or `/`-containing participant id, `doc()` throws before any write (functions/index.js:117-120). The model reads the id as a `users` key instead. With no such profile it marks the invitation processed with `No FCM token found`; with one it queues a record.
- Watchers.NotifyActivityUpdate: the same holds for a malformed participant id of an update (functions/index.js:199-202).
- Deletion.NotifyActivityDeleted: an empty or `/`-containing participant id makes `doc()` throw (functions/index.js:307-310). That aborts the loop, so later participants get nothing. The model looks the id up in `users` and goes on with the rest of the list.
- Deletion.SkippedParticipantChangesNothing: holds in the source only for well-formed ids. A malformed skipped id aborts the remaining participants instead.
- Field values are typed:
  - markers are booleans, and a missing marker reads as `false`;
  - data values are strings;
  - `null` and non-string values are not modelled.
  
  A truthy non-boolean marker, such as `processed: "yes"`, is therefore not covered.
- Firestore's default refusal of `undefined` values on write is not modelled. A missing source field copied into outbox `data` becomes a missing key. A missing `updateMessage`, or a missing `title` or `body` of a generic notification, is queued as an absent notice field.
- Watchers.NotifyEventInvitation: queues the notice built with the corrected lookups (`Payloads.InvitationNotice`), not the object-literal lookups at functions/index.js:147 and 155. The two differ only when the activity type or the role names an inherited object member; `Payloads.InvitationNoticeAsWritten` and `Payloads.InvitationNoticeAgreesOffPrototype` give the as-written notice and pin down that difference.
- The gateway error whose `message` is itself undefined is not modelled.
- `ios/Runner/AppDelegate.swift` is not part of this model. It is platform bootstrap: push registration and map-key setup.

## Findings

| source | as written | input that shows it | evidently intended | confidence | as-written member | corrected member |
|---|---|---|---|---|---|---|
| functions/index.js:138-147 | `{...}[activityType] \|\| '📅'` also reads members every object inherits, and those are truthy | `activityType: "constructor"` gives the title `function Object() { [native code] } Convite para Evento` | every type outside the eight listed falls back to the calendar icon | high; not executed | `Payloads.TypeEmojiAsWrittenMissesFallback` | `Payloads.TypeEmoji` |
| functions/index.js:150-155 | `{...}[participantRole] \|\| 'participante'` also reads inherited object members | `participantRole: "toString"` puts `function toString() { [native code] }` in the invitation body | every role outside the four listed reads `participante` | high; not executed | `Payloads.RoleTextAsWrittenMissesFallback` | `Payloads.RoleText` |

The rest of the model uses the corrected lookups.
