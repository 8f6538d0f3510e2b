/** The records the client works with (the `Row` types of the database schema) and the string
    unions of its columns as enumerations. Dates are millisecond timestamps. */
module Domain {
  import opened Wrappers

  type Id = string

  datatype Role = Admin | Sales

  datatype ProspectStatus = MenungguFollowUp | DalamFollowUp | Selesai

  datatype FollowUpStatus = Pending | InProgress | Completed | Rescheduled

  datatype NotificationType = NewProspect | FollowUpAssigned | FollowUpUpdated

  datatype ReferenceType = ProspectRef | FollowUpRef

  /** A profile as the client pages read it. `username` and `no_hp` are read by the user list, but
      neither the profiles table type nor the GET /profiles listing carries them. */
  datatype Profile = Profile(id: Id, email: string, fullName: string, role: Role, username: string, noHp: string)

  datatype Prospect = Prospect(
    id: Id, nama: string, noHp: string, alamat: string, kebutuhan: string,
    status: ProspectStatus, salesId: Id, createdAt: int)

  datatype FollowUp = FollowUp(
    id: Id, prospectId: Id, assignedBy: Id, assignedTo: Id, scheduledDate: int,
    status: FollowUpStatus, notes: string, completedAt: Option<int>, createdAt: int)

  datatype Notification = Notification(
    id: Id, userId: Id, kind: NotificationType, title: string, message: string,
    referenceId: Id, referenceType: ReferenceType, isRead: bool, createdAt: int)

  /** A notification as the client posts it (no id, no creation time). */
  datatype NotificationDraft = NotificationDraft(
    userId: Id, kind: NotificationType, title: string, message: string,
    referenceId: Id, referenceType: ReferenceType, isRead: bool)

  /** The wire text of each role and status. */
  function RoleText(r: Role): string {
    match r
    case Admin => "admin"
    case Sales => "sales"
  }

  function ProspectStatusText(s: ProspectStatus): string {
    match s
    case MenungguFollowUp => "menunggu_follow_up"
    case DalamFollowUp => "dalam_follow_up"
    case Selesai => "selesai"
  }

  /** A list the server may not have returned, read as the empty list (`data || []`). */
  function ListOr<T>(xs: Option<seq<T>>): seq<T> {
    if xs.Some? then xs.value else []
  }

  /** A follow-up still to do: `pending` or `in_progress`; rescheduled counts as neither this nor
      completed. */
  predicate IsPending(f: FollowUp) {
    f.status == Pending || f.status == InProgress
  }

  predicate IsCompleted(f: FollowUp) {
    f.status == Completed
  }
}
