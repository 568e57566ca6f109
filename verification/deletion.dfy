/** The deletion watcher: when an activity document is deleted, every listed
    participant other than the owner who has a push token gets one
    cancellation notice. The deleted document cannot be written back, so the
    watcher's only effect is the records it appends. */
module Deletion {
  import opened Common
  import opened Outbox
  import opened Payloads

  /** The deleted `activities` document, as last stored. */
  datatype Activity = Activity(title: Option<string>, ownerId: Option<UserId>, participantIds: Option<seq<UserId>>)

  /** Whether the loop notifies participant `id`: it is not the owner (strict
      equality, so a missing owner excludes nobody) and it has a token. */
  predicate Notified(users: Users, owner: Option<UserId>, id: UserId) {
    owner != Some(id) && ResolveToken(users, id).Some?
  }

  /** The participants notified, in list order, one entry per list entry. */
  function Recipients(users: Users, owner: Option<UserId>, ids: seq<UserId>): (rs: seq<UserId>)
    ensures |rs| <= |ids|
    ensures forall i :: 0 <= i < |rs| ==> Notified(users, owner, rs[i])
  {
    if ids == [] then []
    else
      var rest := Recipients(users, owner, ids[1..]);
      if Notified(users, owner, ids[0]) then [ids[0]] + rest else rest
  }

  /** The cancellation record queued for one participant's token. */
  function Cancellation(activityId: string, act: Activity, token: string): (rec: OutboxRecord)
    ensures rec.token == token && StateOf(rec) == Pending
    ensures rec.notice == CancelledNotice(act.title)
    ensures rec.data == Some(CancelledData(activityId, act.title))
  {
    Enqueue(token, CancelledNotice(act.title), CancelledData(activityId, act.title))
  }

  /** The cancellation records for a list of notified participants, in order. */
  function Cancellations(activityId: string, act: Activity, users: Users, rs: seq<UserId>): (out: seq<OutboxRecord>)
    requires forall i :: 0 <= i < |rs| ==> ResolveToken(users, rs[i]).Some?
    ensures |out| == |rs|
    ensures forall i :: 0 <= i < |rs| ==> out[i] == Cancellation(activityId, act, ResolveToken(users, rs[i]).value)
  {
    seq(|rs|, i requires 0 <= i < |rs| => Cancellation(activityId, act, ResolveToken(users, rs[i]).value))
  }

  /** The participant list the loop walks: an absent list is empty. */
  function ParticipantsOf(act: Activity): seq<UserId> {
    act.participantIds.GetOr([])
  }

  /** Reference definition of the fan-out: one record per notified participant. */
  function FanOut(activityId: string, act: Activity, users: Users): seq<OutboxRecord> {
    Cancellations(activityId, act, users, Recipients(users, act.ownerId, ParticipantsOf(act)))
  }

  /** The deletion watcher, as the loop over `participantIds` it is. */
  method NotifyActivityDeleted(activityId: string, act: Activity, users: Users) returns (out: seq<OutboxRecord>)
    ensures out == FanOut(activityId, act, users)
    ensures |out| <= |ParticipantsOf(act)|
  {
    var ids := ParticipantsOf(act);
    out := [];
    for i := 0 to |ids|
      invariant out == Cancellations(activityId, act, users, Recipients(users, act.ownerId, ids[..i]))
    {
      RecipientsAppend(users, act.ownerId, ids[..i], [ids[i]]);
      assert ids[..i + 1] == ids[..i] + [ids[i]];
      var participantId := ids[i];
      if act.ownerId == Some(participantId) {
        continue;
      }
      var token := ResolveToken(users, participantId);
      if token.None? {
        continue;
      }
      out := out + [Cancellation(activityId, act, token.value)];
    }
    assert ids[..|ids|] == ids;
  }

  /** Filtering distributes over concatenation: the records for a list are the
      records for its first part followed by those for the rest, so list order
      is kept and entries do not affect one another. */
  lemma {:induction false} RecipientsAppend(users: Users, owner: Option<UserId>, a: seq<UserId>, b: seq<UserId>)
    ensures Recipients(users, owner, a + b) == Recipients(users, owner, a) + Recipients(users, owner, b)
  {
    if a == [] {
      assert a + b == b;
    } else {
      assert (a + b)[1..] == a[1..] + b;
      RecipientsAppend(users, owner, a[1..], b);
    }
  }

  /** Exactly the listed participants that are not the owner and have a token
      are notified. */
  lemma {:induction false} RecipientsExactly(users: Users, owner: Option<UserId>, ids: seq<UserId>, x: UserId)
    ensures x in Recipients(users, owner, ids) <==> x in ids && Notified(users, owner, x)
  {
    if ids != [] {
      RecipientsExactly(users, owner, ids[1..], x);
      assert ids == [ids[0]] + ids[1..];
    }
  }

  /** The owner never receives a cancellation. */
  lemma OwnerNeverNotified(users: Users, act: Activity)
    requires act.ownerId.Some?
    ensures act.ownerId.value !in Recipients(users, act.ownerId, ParticipantsOf(act))
  {
    RecipientsExactly(users, act.ownerId, ParticipantsOf(act), act.ownerId.value);
  }

  /** A participant without a token, or the owner, is skipped without changing
      what anyone else receives. */
  lemma SkippedParticipantChangesNothing(activityId: string, act: Activity, users: Users,
                                         a: seq<UserId>, p: UserId, b: seq<UserId>)
    requires act.participantIds == Some(a + [p] + b)
    requires !Notified(users, act.ownerId, p)
    ensures FanOut(activityId, act, users) == FanOut(activityId, act.(participantIds := Some(a + b)), users)
  {
    RecipientsAppend(users, act.ownerId, a + [p], b);
    RecipientsAppend(users, act.ownerId, a, [p]);
    RecipientsAppend(users, act.ownerId, a, b);
    assert Recipients(users, act.ownerId, [p]) == [];
  }

  /** An activity with no participant list queues nothing. */
  lemma NoParticipantsNoRecords(activityId: string, act: Activity, users: Users)
    requires act.participantIds.None?
    ensures FanOut(activityId, act, users) == []
  {
  }

  /** Deleting an activity listed as [owner, a, b], where a and b have tokens,
      notifies a and then b and never the owner. */
  lemma OwnerFirstScenario(activityId: string, act: Activity, users: Users, owner: UserId, a: UserId, b: UserId)
    requires act.ownerId == Some(owner) && act.participantIds == Some([owner, a, b])
    requires a != owner && b != owner
    requires ResolveToken(users, a).Some? && ResolveToken(users, b).Some?
    ensures FanOut(activityId, act, users) ==
      [Cancellation(activityId, act, users[a].fcmToken.value), Cancellation(activityId, act, users[b].fcmToken.value)]
  {
    assert [owner, a, b][1..] == [a, b];
    assert [a, b][1..] == [b];
    assert [b][1..] == [];
    var owned := act.ownerId;
    assert Recipients(users, owned, [b]) == [b] + Recipients(users, owned, []);
    assert Recipients(users, owned, [a, b]) == [a] + Recipients(users, owned, [b]);
    assert Recipients(users, owned, [owner, a, b]) == Recipients(users, owned, [a, b]);
  }
}
