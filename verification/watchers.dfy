/** The four single-recipient watchers. Each is a pure function of the created
    document, its id, and the `users` directory (the store reads it would do),
    returning the outbox records it appends and the partial update it writes
    back onto the document, if any. */
module Watchers {
  import opened Common
  import opened Outbox
  import opened Payloads

  /** What one watcher run does to the store. */
  datatype Effect<W> = Effect(appended: seq<OutboxRecord>, write: Option<W>)

  // ---------------------------------------------------------------------------
  // Friend requests: no idempotency marker at all
  // ---------------------------------------------------------------------------

  /** A `friendRequests` document. */
  datatype FriendRequest = FriendRequest(fromUserId: Option<string>, fromUserName: Option<string>, toUserId: UserId)

  /** The friend-request watcher. It never writes to its document, so its
      result is the appended records alone: one when the recipient has a
      token, none otherwise. */
  function NotifyFriendRequest(requestId: string, req: FriendRequest, users: Users): (out: seq<OutboxRecord>)
    ensures |out| <= 1
    ensures |out| == 1 <==> ResolveToken(users, req.toUserId).Some?
    ensures |out| == 1 ==>
      && out[0].token == users[req.toUserId].fcmToken.value
      && StateOf(out[0]) == Pending
      && out[0].notice == FriendRequestNotice(req.fromUserName)
      && out[0].data == Some(FriendRequestData(requestId, req.fromUserId, req.fromUserName))
  {
    match ResolveToken(users, req.toUserId)
    case None => []
    case Some(token) =>
      [Enqueue(token, FriendRequestNotice(req.fromUserName),
               FriendRequestData(requestId, req.fromUserId, req.fromUserName))]
  }

  /** With nothing written back, a re-delivered friend request sees the same
      document and queues a second, identical notification. */
  lemma FriendRequestRedeliveryDuplicates(requestId: string, req: FriendRequest, users: Users)
    requires ResolveToken(users, req.toUserId).Some?
    ensures var twice := NotifyFriendRequest(requestId, req, users) + NotifyFriendRequest(requestId, req, users);
      |twice| == 2 && twice[0] == twice[1]
  {
  }

  // ---------------------------------------------------------------------------
  // The `processed` marker shared by invitations and activity updates
  // ---------------------------------------------------------------------------

  /** The marker fields of an invitation or update document; `processed` is
      `false` when the field is absent. */
  datatype ProcessedMarker = ProcessedMarker(processed: bool, processedAt: Option<Timestamp>, error: Option<string>)

  /** The marker update: `processed: true` with a stamp, and an error message
      when no token was found. */
  datatype ProcessedWrite = ProcessedWrite(processedAt: Timestamp, error: Option<string>)

  const NoTokenFound: string := "No FCM token found"

  /** The marker after the store merges a write into it: the write's fields
      replace the old ones, an error the write does not carry stays as it was. */
  function ApplyProcessed(m: ProcessedMarker, w: ProcessedWrite): (m': ProcessedMarker)
    ensures m'.processed && m'.processedAt == Some(w.processedAt)
    ensures w.error.Some? ==> m'.error == w.error
    ensures w.error.None? ==> m'.error == m.error
  {
    ProcessedMarker(true, Some(w.processedAt), if w.error.Some? then w.error else m.error)
  }

  // ---------------------------------------------------------------------------
  // Event invitations
  // ---------------------------------------------------------------------------

  /** An `eventInvitations` document. */
  datatype Invitation = Invitation(
    marker: ProcessedMarker,
    participantUserId: UserId,
    activityId: Option<string>,
    activityTitle: Option<string>,
    activityType: Option<string>,
    participantRole: Option<string>)

  /** The invitation watcher: skipped once processed; marked processed with an
      error when the participant has no token; otherwise one queued
      notification, then marked processed. */
  function NotifyEventInvitation(inv: Invitation, users: Users): (e: Effect<ProcessedWrite>)
    ensures inv.marker.processed ==> e == Effect([], None)
    ensures !inv.marker.processed && ResolveToken(users, inv.participantUserId).None? ==>
      e.appended == [] && e.write == Some(ProcessedWrite(ServerTimestamp, Some("No FCM token found")))
    ensures !inv.marker.processed && ResolveToken(users, inv.participantUserId).Some? ==>
      && |e.appended| == 1
      && e.appended[0].token == users[inv.participantUserId].fcmToken.value
      && StateOf(e.appended[0]) == Pending
      && e.appended[0].notice == InvitationNotice(inv.activityType, inv.participantRole, inv.activityTitle)
      && e.appended[0].data == Some(InvitationData(inv.activityId, inv.activityTitle, inv.participantRole))
      && e.write == Some(ProcessedWrite(ServerTimestamp, None))
  {
    if inv.marker.processed then Effect([], None)
    else match ResolveToken(users, inv.participantUserId)
      case None => Effect([], Some(ProcessedWrite(ServerTimestamp, Some(NoTokenFound))))
      case Some(token) =>
        var notice := InvitationNotice(inv.activityType, inv.participantRole, inv.activityTitle);
        var data := InvitationData(inv.activityId, inv.activityTitle, inv.participantRole);
        Effect([Enqueue(token, notice, data)], Some(ProcessedWrite(ServerTimestamp, None)))
  }

  /** The invitation after its watcher's write, if any, has been merged. */
  function AfterInvitation(inv: Invitation, users: Users): Invitation {
    var e := NotifyEventInvitation(inv, users);
    if e.write.Some? then inv.(marker := ApplyProcessed(inv.marker, e.write.value)) else inv
  }

  /** Sequential re-delivery: after one run, the invitation is processed and
      only its marker changed; a second run, even against a directory in which
      the token has since appeared, appends nothing and writes nothing. */
  lemma InvitationIdempotent(inv: Invitation, users: Users, later: Users)
    ensures var inv' := AfterInvitation(inv, users);
      inv'.marker.processed && inv' == inv.(marker := inv'.marker)
    ensures NotifyEventInvitation(AfterInvitation(inv, users), later) == Effect([], None)
  {
  }

  // ---------------------------------------------------------------------------
  // Activity updates
  // ---------------------------------------------------------------------------

  /** An `activityUpdates` document. */
  datatype ActivityUpdate = ActivityUpdate(
    marker: ProcessedMarker,
    participantUserId: UserId,
    activityId: Option<string>,
    activityTitle: Option<string>,
    updateMessage: Option<string>)

  /** The activity-update watcher, with the same marker discipline as the
      invitation watcher. */
  function NotifyActivityUpdate(upd: ActivityUpdate, users: Users): (e: Effect<ProcessedWrite>)
    ensures upd.marker.processed ==> e == Effect([], None)
    ensures !upd.marker.processed && ResolveToken(users, upd.participantUserId).None? ==>
      e.appended == [] && e.write == Some(ProcessedWrite(ServerTimestamp, Some("No FCM token found")))
    ensures !upd.marker.processed && ResolveToken(users, upd.participantUserId).Some? ==>
      && |e.appended| == 1
      && e.appended[0].token == users[upd.participantUserId].fcmToken.value
      && StateOf(e.appended[0]) == Pending
      && e.appended[0].notice == UpdateNotice(upd.activityTitle, upd.updateMessage)
      && e.appended[0].data == Some(UpdateData(upd.activityId))
      && e.write == Some(ProcessedWrite(ServerTimestamp, None))
  {
    if upd.marker.processed then Effect([], None)
    else match ResolveToken(users, upd.participantUserId)
      case None => Effect([], Some(ProcessedWrite(ServerTimestamp, Some(NoTokenFound))))
      case Some(token) =>
        Effect([Enqueue(token, UpdateNotice(upd.activityTitle, upd.updateMessage), UpdateData(upd.activityId))],
               Some(ProcessedWrite(ServerTimestamp, None)))
  }

  /** The update document after its watcher's write, if any, has been merged. */
  function AfterActivityUpdate(upd: ActivityUpdate, users: Users): ActivityUpdate {
    var e := NotifyActivityUpdate(upd, users);
    if e.write.Some? then upd.(marker := ApplyProcessed(upd.marker, e.write.value)) else upd
  }

  /** Sequential re-delivery of an activity update appends and writes nothing. */
  lemma ActivityUpdateIdempotent(upd: ActivityUpdate, users: Users, later: Users)
    ensures var upd' := AfterActivityUpdate(upd, users);
      upd'.marker.processed && upd' == upd.(marker := upd'.marker)
    ensures NotifyActivityUpdate(AfterActivityUpdate(upd, users), later) == Effect([], None)
  {
  }

  // ---------------------------------------------------------------------------
  // Generic notifications: the `status` marker
  // ---------------------------------------------------------------------------

  /** A `notifications` document. Its token is carried on the document itself. */
  datatype Notification = Notification(
    status: Option<string>,
    fcmToken: Option<string>,
    title: Option<string>,
    body: Option<string>,
    data: Option<Data>,
    error: Option<string>,
    sentAt: Option<Timestamp>,
    updatedAt: Option<Timestamp>)

  /** The status update: `failed` with a reason and a stamp, or `sent` with a stamp. */
  datatype StatusWrite = StatusFailed(error: string, updatedAt: Timestamp) | StatusSent(sentAt: Timestamp)

  const NoToken: string := "No FCM token"

  /** Only a document whose status is exactly `pending` is handled. */
  predicate IsPendingStatus(n: Notification) {
    n.status == Some("pending")
  }

  /** The generic-notification watcher: skipped unless pending; marked failed
      when it carries no token; otherwise its title, body and data are queued
      as they are, and it is marked sent. */
  function SendNotification(n: Notification): (e: Effect<StatusWrite>)
    ensures !IsPendingStatus(n) ==> e == Effect([], None)
    ensures IsPendingStatus(n) && !Truthy(n.fcmToken) ==>
      e.appended == [] && e.write == Some(StatusFailed("No FCM token", ServerTimestamp))
    ensures IsPendingStatus(n) && Truthy(n.fcmToken) ==>
      && |e.appended| == 1
      && e.appended[0].token == n.fcmToken.value
      && StateOf(e.appended[0]) == Pending
      && e.appended[0].notice == Notice(n.title, n.body)
      && e.appended[0].data == Some(if n.data.Some? then n.data.value else map[])
      && e.write == Some(StatusSent(ServerTimestamp))
  {
    if !IsPendingStatus(n) then Effect([], None)
    else if !Truthy(n.fcmToken) then Effect([], Some(StatusFailed(NoToken, ServerTimestamp)))
    else Effect([Enqueue(n.fcmToken.value, Notice(n.title, n.body), n.data.GetOr(map[]))],
                Some(StatusSent(ServerTimestamp)))
  }

  /** The document after the store merges a status write into it: only the
      status and the write's own fields change. */
  function ApplyStatus(n: Notification, w: StatusWrite): (n': Notification)
    ensures n'.fcmToken == n.fcmToken && n'.title == n.title && n'.body == n.body && n'.data == n.data
    ensures w.StatusFailed? ==>
      n' == n.(status := Some("failed"), error := Some(w.error), updatedAt := Some(w.updatedAt))
    ensures w.StatusSent? ==> n' == n.(status := Some("sent"), sentAt := Some(w.sentAt))
  {
    match w
    case StatusFailed(error, at) => n.(status := Some("failed"), error := Some(error), updatedAt := Some(at))
    case StatusSent(at) => n.(status := Some("sent"), sentAt := Some(at))
  }

  /** The notification after its watcher's write, if any, has been merged. */
  function AfterNotification(n: Notification): Notification {
    var e := SendNotification(n);
    if e.write.Some? then ApplyStatus(n, e.write.value) else n
  }

  /** Sequential re-delivery of a generic notification appends and writes
      nothing: its status is no longer `pending`. */
  lemma NotificationIdempotent(n: Notification)
    ensures !IsPendingStatus(AfterNotification(n))
    ensures SendNotification(AfterNotification(n)) == Effect([], None)
  {
  }

  /** A status other than `pending`, a missing one included, is left alone. */
  lemma NonPendingStatusIgnored(n: Notification)
    requires n.status != Some("pending")
    ensures SendNotification(n).appended == [] && SendNotification(n).write.None?
    ensures AfterNotification(n) == n
  {
  }
}
