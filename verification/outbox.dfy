/** The `fcmMessages` outbox: the records the watchers append and the
    dispatcher delivers, and the user directory the watchers read tokens from. */
module Outbox {
  import opened Common

  type UserId = string

  /** A client-routing mapping carried with a notification. */
  type Data = map<string, string>

  /** A stored user profile; only its push token is read. */
  datatype Profile = Profile(fcmToken: Option<string>)

  /** The `users` collection, keyed by user id; a missing key is a missing document. */
  type Users = map<UserId, Profile>

  /** The visible part of a push notification. */
  datatype Notice = Notice(title: Option<string>, body: Option<string>)

  /** One `fcmMessages` document. `sent` is `false` when the field is absent,
      which the dispatcher's truthiness guard cannot tell apart. */
  datatype OutboxRecord = OutboxRecord(
    token: string,
    notice: Notice,
    data: Option<Data>,
    createdAt: Option<Timestamp>,
    sent: bool,
    sentAt: Option<Timestamp>,
    error: Option<string>)

  /** Where a record stands in its delivery. */
  datatype DeliveryState = Pending | Sent | Failed

  function StateOf(rec: OutboxRecord): DeliveryState {
    if rec.sent then Sent
    else if rec.error.Some? then Failed
    else Pending
  }

  /** Token lookup for a user: absent when there is no profile document or its
      `fcmToken` is missing or empty. Never an error. */
  function ResolveToken(users: Users, id: UserId): (t: Option<string>)
    ensures t.Some? <==> id in users && Truthy(users[id].fcmToken)
    ensures t.Some? ==> t.value != "" && users[id].fcmToken == t
  {
    if id in users && Truthy(users[id].fcmToken) then users[id].fcmToken else None
  }

  /** The record every watcher appends: the resolved token, the payload, a
      creation stamp and `sent: false`; no delivery fields yet. */
  function Enqueue(token: string, notice: Notice, data: Data): (rec: OutboxRecord)
    ensures rec.token == token && rec.notice == notice && rec.data == Some(data)
    ensures StateOf(rec) == Pending && rec.createdAt.Some?
    ensures rec.sentAt.None?
  {
    OutboxRecord(token, notice, Some(data), Some(ServerTimestamp), false, None, None)
  }

  /** `m` with `key` bound to the field's value when it is present. */
  function WithField(m: Data, key: string, field: Option<string>): (r: Data)
    ensures field.Some? ==> r == m[key := field.value]
    ensures field.None? ==> r == m
  {
    if field.Some? then m[key := field.value] else m
  }
}
