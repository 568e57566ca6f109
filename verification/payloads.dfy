/** Payload templates of the watchers: the Portuguese titles and bodies, the
    client-routing data, and the two decorative lookup tables (activity type to
    emoji, participant role to label) with their default buckets. */
module Payloads {
  import opened Common
  import opened Outbox

  // ---------------------------------------------------------------------------
  // Lookup tables
  // ---------------------------------------------------------------------------

  /** Activity type to the emoji that prefixes an invitation title. */
  const ActivityEmoji: map<string, string> := map[
    "beach" := "\U{1F3D6}\U{FE0F}",  // beach with umbrella
    "hiking" := "\U{1F97E}",          // hiking boot
    "camping" := "\U{26FA}",          // tent
    "sports" := "\U{26BD}",           // soccer ball
    "picnic" := "\U{1F9FA}",          // basket
    "party" := "\U{1F389}",           // party popper
    "concert" := "\U{1F3B5}",         // musical note
    "other" := "\U{1F4C5}"            // calendar
  ]

  /** The icon used for any activity type outside the table. */
  const DefaultEmoji: string := "\U{1F4C5}"

  /** Participant role to its Portuguese label. */
  const RoleLabel: map<string, string> := map[
    "owner" := "dono",
    "admin" := "administrador",
    "moderator" := "moderador",
    "participant" := "participante"
  ]

  /** The label used for any role outside the table. */
  const DefaultRole: string := "participante"

  /** Reading `table[key] || fallback` on a table's own entries only. */
  function Lookup(table: map<string, string>, key: Option<string>, fallback: string): (r: string)
    ensures key.Some? && key.value in table && table[key.value] != "" ==> r == table[key.value]
    ensures !(key.Some? && key.value in table) ==> r == fallback
  {
    var entry := if key.Some? && key.value in table then Some(table[key.value]) else None;
    OrElse(entry, fallback)
  }

  /** The emoji for an invitation's `activityType`; unknown and missing types
      share the icon of `other`. */
  function TypeEmoji(activityType: Option<string>): (r: string)
    ensures r in ActivityEmoji.Values
    ensures activityType.Some? && activityType.value in ActivityEmoji ==> r == ActivityEmoji[activityType.value]
    ensures !(activityType.Some? && activityType.value in ActivityEmoji) ==> r == ActivityEmoji["other"]
  {
    assert ActivityEmoji["other"] in ActivityEmoji.Values;
    assert activityType.Some? && activityType.value in ActivityEmoji ==>
      ActivityEmoji[activityType.value] in ActivityEmoji.Values;
    Lookup(ActivityEmoji, activityType, DefaultEmoji)
  }

  /** The label for an invitation's `participantRole`; unknown and missing roles
      read as a plain participant. */
  function RoleText(role: Option<string>): (r: string)
    ensures r in RoleLabel.Values
    ensures role.Some? && role.value in RoleLabel ==> r == RoleLabel[role.value]
    ensures !(role.Some? && role.value in RoleLabel) ==> r == RoleLabel["participant"]
  {
    assert RoleLabel["participant"] in RoleLabel.Values;
    assert role.Some? && role.value in RoleLabel ==> RoleLabel[role.value] in RoleLabel.Values;
    Lookup(RoleLabel, role, DefaultRole)
  }

  /** Every activity type outside the table, including a missing one, gets the
      same emoji as `other`. */
  lemma EmojiFallback(activityType: Option<string>)
    requires activityType.None? || activityType.value !in ActivityEmoji
    ensures TypeEmoji(activityType) == TypeEmoji(Some("other")) == "\U{1F4C5}"
  {
  }

  /** Every role outside the table, including a missing one, gets the same
      label as `participant`. */
  lemma RoleFallback(role: Option<string>)
    requires role.None? || role.value !in RoleLabel
    ensures RoleText(role) == RoleText(Some("participant")) == "participante"
  {
  }

  /** Distinct known activity types get distinct emoji, so the fallback bucket
      is shared only with `other`. */
  lemma EmojiTableInjective(a: string, b: string)
    requires a in ActivityEmoji && b in ActivityEmoji && a != b
    ensures TypeEmoji(Some(a)) != TypeEmoji(Some(b))
  {
  }

  // ---------------------------------------------------------------------------
  // The lookup as the source writes it
  // ---------------------------------------------------------------------------

  /** Properties every plain JavaScript object inherits from `Object.prototype`,
      each with the string its value interpolates to: a native function renders
      as its source stub, `__proto__` is the prototype object itself. */
  const InheritedMembers: map<string, string> := map[
    "constructor" := "function Object() { [native code] }",
    "hasOwnProperty" := "function hasOwnProperty() { [native code] }",
    "isPrototypeOf" := "function isPrototypeOf() { [native code] }",
    "propertyIsEnumerable" := "function propertyIsEnumerable() { [native code] }",
    "toLocaleString" := "function toLocaleString() { [native code] }",
    "toString" := "function toString() { [native code] }",
    "valueOf" := "function valueOf() { [native code] }",
    "__defineGetter__" := "function __defineGetter__() { [native code] }",
    "__defineSetter__" := "function __defineSetter__() { [native code] }",
    "__lookupGetter__" := "function __lookupGetter__() { [native code] }",
    "__lookupSetter__" := "function __lookupSetter__() { [native code] }",
    "__proto__" := "[object Object]"
  ]

  /** `{...}[key] || fallback` on an object literal: a missing key is read as the
      property named "undefined", and a key naming an inherited member reads that
      member, which is truthy and so never falls back. */
  function ObjectLiteralLookup(table: map<string, string>, key: Option<string>, fallback: string): (r: string)
    requires table.Keys !! InheritedMembers.Keys
    ensures Show(key) in table && table[Show(key)] != "" ==> r == table[Show(key)]
    ensures Show(key) in InheritedMembers ==> r == InheritedMembers[Show(key)]
    ensures Show(key) !in table && Show(key) !in InheritedMembers ==> r == fallback
  {
    var name := Show(key);
    if name in table then OrElse(Some(table[name]), fallback)
    else if name in InheritedMembers then InheritedMembers[name]
    else fallback
  }

  /** The emoji lookup exactly as written in the invitation watcher. */
  function TypeEmojiAsWritten(activityType: Option<string>): (r: string)
    ensures Show(activityType) in InheritedMembers ==> r == InheritedMembers[Show(activityType)]
    ensures Show(activityType) !in InheritedMembers ==> r == TypeEmoji(activityType)
  {
    ObjectLiteralLookup(ActivityEmoji, activityType, DefaultEmoji)
  }

  /** The role lookup exactly as written in the invitation watcher. */
  function RoleTextAsWritten(role: Option<string>): (r: string)
    ensures Show(role) in InheritedMembers ==> r == InheritedMembers[Show(role)]
    ensures Show(role) !in InheritedMembers ==> r == RoleText(role)
  {
    ObjectLiteralLookup(RoleLabel, role, DefaultRole)
  }

  /** The as-written lookups agree with the intended ones on every key that
      does not name an inherited member. */
  lemma AsWrittenAgreesOffPrototype(key: Option<string>)
    requires Show(key) !in InheritedMembers
    ensures TypeEmojiAsWritten(key) == TypeEmoji(key)
    ensures RoleTextAsWritten(key) == RoleText(key)
  {
  }

  /** An activity type naming an inherited member escapes the fallback: the
      invitation title then starts with a function's source stub. */
  lemma TypeEmojiAsWrittenMissesFallback()
    ensures "constructor" !in ActivityEmoji
    ensures TypeEmojiAsWritten(Some("constructor")) == "function Object() { [native code] }"
    ensures TypeEmojiAsWritten(Some("constructor")) != TypeEmoji(Some("other"))
  {
  }

  /** A role naming an inherited member escapes the fallback the same way. */
  lemma RoleTextAsWrittenMissesFallback()
    ensures "toString" !in RoleLabel
    ensures RoleTextAsWritten(Some("toString")) == "function toString() { [native code] }"
    ensures RoleTextAsWritten(Some("toString")) != RoleText(Some("participant"))
  {
  }

  // ---------------------------------------------------------------------------
  // Templates
  // ---------------------------------------------------------------------------

  const FriendRequestTitle: string := "Nova solicitação de amizade"

  /** The friend-request notification: a fixed title and a body naming the
      sender, or a generic "someone" when the name is missing or empty. */
  function FriendRequestNotice(fromUserName: Option<string>): (n: Notice)
    ensures n.title == Some("Nova solicitação de amizade")
    ensures Truthy(fromUserName) ==> n.body == Some(fromUserName.value + " quer ser seu amigo")
    ensures !Truthy(fromUserName) ==> n.body == Some("Alguém quer ser seu amigo")
  {
    assert "Alguém" + " quer ser seu amigo" == "Alguém quer ser seu amigo";
    Notice(Some(FriendRequestTitle), Some(OrElse(fromUserName, "Alguém") + " quer ser seu amigo"))
  }

  /** Routing data of a friend request; the sender name is always present, the
      empty string standing in for a missing one. */
  function FriendRequestData(requestId: string, fromUserId: Option<string>, fromUserName: Option<string>): (d: Data)
    ensures d.Keys == {"type", "requestId", "fromUserName"} + (if fromUserId.Some? then {"fromUserId"} else {})
    ensures d["type"] == "friend_request" && d["requestId"] == requestId
    ensures fromUserId.Some? ==> d["fromUserId"] == fromUserId.value
    ensures d["fromUserName"] == (if Truthy(fromUserName) then fromUserName.value else "")
  {
    var base := map["type" := "friend_request", "requestId" := requestId,
                     "fromUserName" := OrElse(fromUserName, "")];
    WithField(base, "fromUserId", fromUserId)
  }

  /** The invitation notification: the activity's emoji before the title, the
      role label and the quoted activity title in the body. */
  function InvitationNotice(activityType: Option<string>, role: Option<string>, activityTitle: Option<string>): (n: Notice)
    ensures activityType.Some? && activityType.value in ActivityEmoji ==>
      n.title == Some(ActivityEmoji[activityType.value] + " Convite para Evento")
    ensures !(activityType.Some? && activityType.value in ActivityEmoji) ==>
      n.title == Some("\U{1F4C5} Convite para Evento")
    ensures role.Some? && role.value in RoleLabel ==>
      n.body == Some("Você foi convidado como " + RoleLabel[role.value] + " para \"" + Show(activityTitle) + "\"")
    ensures !(role.Some? && role.value in RoleLabel) ==>
      n.body == Some("Você foi convidado como participante para \"" + Show(activityTitle) + "\"")
  {
    assert "\U{1F4C5}" + " Convite para Evento" == "\U{1F4C5} Convite para Evento";
    assert "Você foi convidado como " + "participante" + " para \"" == "Você foi convidado como participante para \"";
    Notice(Some(TypeEmoji(activityType) + " Convite para Evento"),
           Some("Você foi convidado como " + RoleText(role) + " para \"" + Show(activityTitle) + "\""))
  }

  /** Routing data of an invitation: the raw role, not its label. */
  function InvitationData(activityId: Option<string>, activityTitle: Option<string>, role: Option<string>): (d: Data)
    ensures "type" in d && d["type"] == "event_invitation"
    ensures "activityId" in d <==> activityId.Some?
    ensures "activityTitle" in d <==> activityTitle.Some?
    ensures "role" in d <==> role.Some?
    ensures activityId.Some? ==> d["activityId"] == activityId.value
    ensures activityTitle.Some? ==> d["activityTitle"] == activityTitle.value
    ensures role.Some? ==> d["role"] == role.value
    ensures d.Keys <= {"type", "activityId", "activityTitle", "role"}
  {
    var d0 := map["type" := "event_invitation"];
    WithField(WithField(WithField(d0, "activityId", activityId), "activityTitle", activityTitle), "role", role)
  }

  /** The activity-update notification: a memo-prefixed title and the update's
      own message as body, absent when the message is. */
  function UpdateNotice(activityTitle: Option<string>, updateMessage: Option<string>): (n: Notice)
    ensures activityTitle.Some? ==> n.title == Some("\U{1F4DD} Atualização: " + activityTitle.value)
    ensures activityTitle.None? ==> n.title == Some("\U{1F4DD} Atualização: undefined")
    ensures n.body == updateMessage
  {
    assert "\U{1F4DD} Atualização: " + "undefined" == "\U{1F4DD} Atualização: undefined";
    Notice(Some("\U{1F4DD} Atualização: " + Show(activityTitle)), updateMessage)
  }

  /** Routing data of an activity update. */
  function UpdateData(activityId: Option<string>): (d: Data)
    ensures "type" in d && d["type"] == "activity_update"
    ensures "activityId" in d <==> activityId.Some?
    ensures activityId.Some? ==> d["activityId"] == activityId.value
    ensures d.Keys <= {"type", "activityId"}
  {
    WithField(map["type" := "activity_update"], "activityId", activityId)
  }

  /** The cancellation notification sent to each remaining participant of a
      deleted activity. */
  function CancelledNotice(title: Option<string>): (n: Notice)
    ensures n.title == Some("\U{274C} Evento Cancelado")
    ensures title.Some? ==> n.body == Some("O evento \"" + title.value + "\" foi cancelado pelo organizador")
    ensures title.None? ==> n.body == Some("O evento \"undefined\" foi cancelado pelo organizador")
  {
    assert "O evento \"" + "undefined" == "O evento \"undefined";
    assert "O evento \"undefined" + "\" foi cancelado pelo organizador"
        == "O evento \"undefined\" foi cancelado pelo organizador";
    Notice(Some("\U{274C} Evento Cancelado"),
           Some("O evento \"" + Show(title) + "\" foi cancelado pelo organizador"))
  }

  /** Routing data of a cancellation: the deleted document's id and its title. */
  function CancelledData(activityId: string, title: Option<string>): (d: Data)
    ensures "type" in d && d["type"] == "activity_deleted"
    ensures "activityId" in d && d["activityId"] == activityId
    ensures "activityTitle" in d <==> title.Some?
    ensures title.Some? ==> d["activityTitle"] == title.value
    ensures d.Keys <= {"type", "activityId", "activityTitle"}
  {
    WithField(map["type" := "activity_deleted", "activityId" := activityId], "activityTitle", title)
  }

  /** Unknown or missing activity types and roles change nothing in an
      invitation but the bucket they fall into: the notice is the one for an
      `other` activity offered to a `participant`. */
  lemma InvitationNoticeFallbacks(activityType: Option<string>, role: Option<string>, activityTitle: Option<string>)
    requires activityType.None? || activityType.value !in ActivityEmoji
    requires role.None? || role.value !in RoleLabel
    ensures InvitationNotice(activityType, role, activityTitle)
         == InvitationNotice(Some("other"), Some("participant"), activityTitle)
    ensures InvitationNotice(activityType, role, activityTitle).title == Some("\U{1F4C5} Convite para Evento")
  {
    assert "\U{1F4C5}" + " Convite para Evento" == "\U{1F4C5} Convite para Evento";
  }

  /** A known activity type and role show up verbatim from the tables in the
      invitation's title and body. */
  lemma InvitationNoticeUsesTables(activityType: string, role: string, activityTitle: Option<string>)
    requires activityType in ActivityEmoji && role in RoleLabel
    ensures var n := InvitationNotice(Some(activityType), Some(role), activityTitle);
      && n.title == Some(ActivityEmoji[activityType] + " Convite para Evento")
      && n.body == Some("Você foi convidado como " + RoleLabel[role] + " para \"" + Show(activityTitle) + "\"")
  {
  }

  /** The invitation notification exactly as the watcher builds it, with the
      object-literal lookups. */
  function InvitationNoticeAsWritten(activityType: Option<string>, role: Option<string>, activityTitle: Option<string>): (n: Notice)
    ensures Show(activityType) in InheritedMembers ==>
      n.title == Some(InheritedMembers[Show(activityType)] + " Convite para Evento")
    ensures Show(activityType) !in InheritedMembers ==>
      n.title == InvitationNotice(activityType, role, activityTitle).title
    ensures Show(role) in InheritedMembers ==>
      n.body == Some("Você foi convidado como " + InheritedMembers[Show(role)] + " para \"" + Show(activityTitle) + "\"")
    ensures Show(role) !in InheritedMembers ==>
      n.body == InvitationNotice(activityType, role, activityTitle).body
  {
    Notice(Some(TypeEmojiAsWritten(activityType) + " Convite para Evento"),
           Some("Você foi convidado como " + RoleTextAsWritten(role) + " para \"" + Show(activityTitle) + "\""))
  }

  /** The invitation notice as written and the one the model queues coincide
      unless the activity type or the role names an inherited member. */
  lemma InvitationNoticeAgreesOffPrototype(activityType: Option<string>, role: Option<string>, activityTitle: Option<string>)
    requires Show(activityType) !in InheritedMembers && Show(role) !in InheritedMembers
    ensures InvitationNoticeAsWritten(activityType, role, activityTitle) == InvitationNotice(activityType, role, activityTitle)
  {
  }

  /** With the activity type `constructor` the invitation title as written
      differs from the one the model queues. */
  lemma InvitationNoticeAsWrittenDiffers(role: Option<string>, activityTitle: Option<string>)
    ensures InvitationNoticeAsWritten(Some("constructor"), role, activityTitle).title
         != InvitationNotice(Some("constructor"), role, activityTitle).title
  {
    var w := "function Object() { [native code] }" + " Convite para Evento";
    var c := "\U{1F4C5}" + " Convite para Evento";
    assert w[0] != c[0];
  }
}
