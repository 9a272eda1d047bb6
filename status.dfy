/** The status value an account carries, the reason attached to a status
    change, and the notification a status change may trigger. */
module Statuses {
  import opened Values

  /** Presence level of a status. */
  datatype StatusType = Connecting | Online | FreeChat | Away | NA | DND | Invisible | Offline

  /** Why a status changed; stored in a status under the "changeReason" property. */
  datatype ChangeReason = ByUser | ByIdle | ByAuthorizationFailed | ByNetworkError | ByFatalError

  /** A status value: level, named integer properties and the extended-info map. */
  datatype Status = Status(level: StatusType, properties: map<string, int>, extendedInfos: map<string, Parameters>)

  /** The status a new account starts with (a default-constructed status). */
  const DefaultStatus: Status := Status(Offline, map[], map[])

  const ChangeReasonKey: string := "changeReason"

  /** The integer under which a change reason is stored (enumerator order). */
  function Code(reason: ChangeReason): int
  {
    match reason
    case ByUser => 0
    case ByIdle => 1
    case ByAuthorizationFailed => 2
    case ByNetworkError => 3
    case ByFatalError => 4
  }

  /** The change reason an integer names, if any. */
  function ReasonFromCode(code: int): (r: Option<ChangeReason>)
    ensures r.Some? <==> 0 <= code < 5
    ensures r.Some? ==> Code(r.value) == code
  {
    if code == 0 then Some(ByUser)
    else if code == 1 then Some(ByIdle)
    else if code == 2 then Some(ByAuthorizationFailed)
    else if code == 3 then Some(ByNetworkError)
    else if code == 4 then Some(ByFatalError)
    else None
  }

  /** Storing a reason and reading it back gives the same reason. */
  lemma CodeRoundTrip(reason: ChangeReason)
    ensures ReasonFromCode(Code(reason)) == Some(reason)
  {
  }

  /** The change reason of a status: its "changeReason" property, ByUser when
      the property is absent, None when the stored integer names no reason
      (then no branch of the reason switch applies). */
  function ChangeReasonOf(s: Status): (r: Option<ChangeReason>)
    ensures ChangeReasonKey !in s.properties ==> r == Some(ByUser)
    ensures ChangeReasonKey in s.properties ==>
              forall reason :: r == Some(reason) <==> Code(reason) == s.properties[ChangeReasonKey]
  {
    var code := if ChangeReasonKey in s.properties then s.properties[ChangeReasonKey] else Code(ByUser);
    ReasonFromCode(code)
  }

  /** A notification request: its category and its text. */
  datatype NotificationType = System
  datatype Notification = Notification(kind: NotificationType, text: string)

  const AuthorizationFailedNotice: Notification := Notification(System, "Authorization failed")

  /** The notification that setting status `s` sends, if any. */
  function NotificationFor(s: Status): (r: Option<Notification>)
    ensures r.Some? <==> ChangeReasonOf(s) == Some(ByAuthorizationFailed)
    ensures r.Some? ==> r.value.kind == System && r.value.text == "Authorization failed"
  {
    match ChangeReasonOf(s)
    case Some(ByAuthorizationFailed) => Some(AuthorizationFailedNotice)
    case _ => None
  }

  /** A status without a change reason counts as a change by the user and
      sends no notification. */
  lemma NoReasonIsSilent(s: Status)
    requires ChangeReasonKey !in s.properties
    ensures ChangeReasonOf(s) == Some(ByUser)
    ensures NotificationFor(s) == None
  {
  }

  /** Of the five reasons, only ByAuthorizationFailed sends a notification. */
  lemma OnlyAuthorizationFailureNotifies(s: Status, reason: ChangeReason)
    requires ChangeReasonKey in s.properties && s.properties[ChangeReasonKey] == Code(reason)
    ensures NotificationFor(s).Some? <==> reason == ByAuthorizationFailed
  {
  }
}
