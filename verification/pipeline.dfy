/** Watchers and dispatcher composed: what a queued record becomes once the
    dispatcher picks it up. */
module Pipeline {
  import opened Common
  import opened Outbox
  import opened Payloads
  import opened Dispatcher
  import opened Watchers
  import opened Deletion

  /** Every record a watcher queues is picked up by the dispatcher, which hands
      the gateway exactly the queued token, notice and data with the static
      platform hints, and on success leaves it `Sent`. */
  lemma QueuedRecordIsSentAsQueued(token: string, notice: Notice, data: Data, outcome: GatewayOutcome)
    ensures SendFcmNotification(Enqueue(token, notice, data), outcome).sent
      == Some(Envelope(token, notice, data, Apns, Android))
    ensures outcome.Delivered? ==> StateOf(AfterDispatch(Enqueue(token, notice, data), outcome)) == Sent
    ensures outcome.Rejected? ==> StateOf(AfterDispatch(Enqueue(token, notice, data), outcome)) == Failed
  {
  }

  /** A friend request from "Ana" (u2) to u1, whose profile holds token
      "tok1", queues exactly one notification, and the dispatcher delivers it
      with the Portuguese title and body and the request's routing data. */
  lemma FriendRequestEndToEnd(requestId: string, users: Users, messageId: string)
    requires "u1" in users && users["u1"] == Profile(Some("tok1"))
    ensures var out := NotifyFriendRequest(requestId, FriendRequest(Some("u2"), Some("Ana"), "u1"), users);
      && |out| == 1
      && SendFcmNotification(out[0], Delivered(messageId)).sent == Some(Envelope(
           "tok1",
           Notice(Some("Nova solicitação de amizade"), Some("Ana quer ser seu amigo")),
           map["type" := "friend_request", "requestId" := requestId,
               "fromUserName" := "Ana", "fromUserId" := "u2"],
           Apns, Android))
      && StateOf(AfterDispatch(out[0], Delivered(messageId))) == Sent
  {
    assert "Ana" + " quer ser seu amigo" == "Ana quer ser seu amigo";
  }

  /** An invitation whose notification the gateway rejects is never retried
      through the watcher: the queued record hands the gateway the invitation's
      notice and data under the participant's token and ends `Failed` with the
      gateway's message, while the invitation itself was marked processed
      without an error, so re-delivering it queues nothing new. */
  lemma InvitationFailureIsNotRetried(inv: Invitation, users: Users, message: string, later: Users)
    requires !inv.marker.processed && ResolveToken(users, inv.participantUserId).Some?
    ensures var rec := NotifyEventInvitation(inv, users).appended[0];
      && SendFcmNotification(rec, Rejected(message)).sent == Some(Envelope(
           users[inv.participantUserId].fcmToken.value,
           InvitationNotice(inv.activityType, inv.participantRole, inv.activityTitle),
           InvitationData(inv.activityId, inv.activityTitle, inv.participantRole),
           Apns, Android))
      && StateOf(AfterDispatch(rec, Rejected(message))) == Failed
      && AfterDispatch(rec, Rejected(message)).error == Some(message)
    ensures AfterInvitation(inv, users).marker.processed
    ensures AfterInvitation(inv, users).marker.error == inv.marker.error
    ensures NotifyEventInvitation(AfterInvitation(inv, users), later) == Effect([], None)
  {
  }

  /** Every cancellation queued by the deletion watcher reaches the gateway
      with the cancellation notice and the deleted activity's routing data. */
  lemma CancellationsAreSentAsQueued(activityId: string, act: Activity, users: Users, i: nat, outcome: GatewayOutcome)
    requires i < |FanOut(activityId, act, users)|
    ensures var rec := FanOut(activityId, act, users)[i];
      && SendFcmNotification(rec, outcome).sent.Some?
      && SendFcmNotification(rec, outcome).sent.value.notice == CancelledNotice(act.title)
      && SendFcmNotification(rec, outcome).sent.value.data == CancelledData(activityId, act.title)
  {
  }
}
