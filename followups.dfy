/** The follow-up list page: how an update is built and written, the list filters, the overdue
    test, the load scope and the update-button gating. */
module FollowUpsPage {
  import opened Wrappers
  import opened Domain
  import opened ClientStore
  import ApiClient
  import Json
  import Seqs
  import Strings

  /** A listed follow-up with its prospect (absent when the join found none). */
  datatype FollowUpWithDetails = FollowUpWithDetails(followUp: FollowUp, prospect: Option<Prospect>)

  /** The update form: the status chosen in the select, the notes and the new schedule. */
  datatype UpdateForm = UpdateForm(status: FollowUpStatus, notes: string, scheduledDate: int)

  /** `openUpdateModal`: the form starts from the follow-up's own values. */
  function OpenUpdateForm(f: FollowUp): (r: UpdateForm)
    ensures r.status == f.status && r.notes == f.notes && r.scheduledDate == f.scheduledDate
  {
    UpdateForm(f.status, f.notes, f.scheduledDate)
  }

  /** The `updates` object of `handleUpdate`, with `now` the submission time. */
  function UpdatesFor(form: UpdateForm, now: int): (u: FollowUpPatch)
    ensures u.status == Some(if form.status == Rescheduled then Pending else form.status)
    ensures u.notes == Some(form.notes)
    ensures u.scheduledDate.Some? <==> form.status == Rescheduled
    ensures u.scheduledDate.Some? ==> u.scheduledDate.value == form.scheduledDate
    ensures u.completedAt.Some? <==> form.status == Completed
    ensures u.completedAt.Some? ==> u.completedAt.value == now
  {
    var u := FollowUpPatch(Some(form.status), Some(form.notes), None, None);
    var u := if form.status == Completed then u.(completedAt := Some(now)) else u;
    if form.status == Rescheduled then u.(scheduledDate := Some(form.scheduledDate), status := Some(Pending)) else u
  }

  /** The form never writes the status `rescheduled`: a new schedule is stored as pending. */
  lemma NeverWritesRescheduled(form: UpdateForm, now: int, f: FollowUp)
    ensures PatchFollowUp(f, UpdatesFor(form, now)).status != Rescheduled
    ensures form.status == Rescheduled ==>
      PatchFollowUp(f, UpdatesFor(form, now)).status == Pending
      && PatchFollowUp(f, UpdatesFor(form, now)).scheduledDate == form.scheduledDate
    ensures form.status != Rescheduled ==> PatchFollowUp(f, UpdatesFor(form, now)).scheduledDate == f.scheduledDate
  {
  }

  const UpdatedTitle := "Follow-Up Diupdate"
  const UpdatedMessageMiddle := " telah mengupdate follow-up untuk prospek: "

  /** `${selectedFollowUp.prospect?.nama}` prints `undefined` without a prospect. */
  function ProspectNameText(p: Option<Prospect>): string {
    if p.Some? then p.value.nama else "undefined"
  }

  /** The notification every successful update sends to whoever assigned the follow-up. */
  function UpdateNotice(actor: Profile, item: FollowUpWithDetails): (n: NotificationDraft)
    ensures n.userId == item.followUp.assignedBy && n.kind == FollowUpUpdated
    ensures n.referenceId == item.followUp.id && n.referenceType == FollowUpRef && !n.isRead
  {
    NotificationDraft(item.followUp.assignedBy, FollowUpUpdated, UpdatedTitle,
      actor.fullName + UpdatedMessageMiddle + ProspectNameText(item.prospect),
      item.followUp.id, FollowUpRef, false)
  }

  /** The write calls of one update, in the order `handleUpdate` awaits them. */
  function UpdateCalls(actor: Profile, item: FollowUpWithDetails, form: UpdateForm, now: int): (r: seq<Call>)
    ensures |r| == if form.status == Completed then 3 else 2
    ensures form.status == Completed ==>
      r[0] == UpdateProspectCall(item.followUp.prospectId, StatusPatch(Selesai))
    ensures r[|r| - 2] == UpdateFollowUpCall(item.followUp.id, UpdatesFor(form, now))
    ensures r[|r| - 1] == CreateNotificationsCall([UpdateNotice(actor, item)])
  {
    (if form.status == Completed then [UpdateProspectCall(item.followUp.prospectId, StatusPatch(Selesai))] else [])
    + [UpdateFollowUpCall(item.followUp.id, UpdatesFor(form, now)),
       CreateNotificationsCall([UpdateNotice(actor, item)])]
  }

  /** `handleUpdate`: nothing without a selection and a profile; otherwise the parent prospect is set to
      selesai first when completing, then the follow-up is written, then its assigner is notified. */
  method HandleUpdate(store: Store, selected: Option<FollowUpWithDetails>, profile: Option<Profile>,
                      form: UpdateForm, now: int)
    modifies store
    ensures selected.None? || profile.None? ==>
      store.calls == old(store.calls) && store.prospects == old(store.prospects)
      && store.followUps == old(store.followUps) && store.notifications == old(store.notifications)
    ensures selected.Some? && profile.Some? ==>
      && store.calls == old(store.calls) + UpdateCalls(profile.value, selected.value, form, now)
      && store.prospects == (if form.status == Completed
           then UpdateAt(old(store.prospects), selected.value.followUp.prospectId, ProspectPatcher(StatusPatch(Selesai)))
           else old(store.prospects))
      && store.followUps == UpdateAt(old(store.followUps), selected.value.followUp.id, FollowUpPatcher(UpdatesFor(form, now)))
      && store.notifications == old(store.notifications) + [UpdateNotice(profile.value, selected.value)]
    ensures store.profiles == old(store.profiles)
  {
    if selected.None? || profile.None? {
      return;
    }
    var item, actor := selected.value, profile.value;
    var updates := FollowUpPatch(Some(form.status), Some(form.notes), None, None);
    if form.status == Completed {
      updates := updates.(completedAt := Some(now));
      store.UpdateProspect(item.followUp.prospectId, StatusPatch(Selesai));
    }
    if form.status == Rescheduled {
      updates := updates.(scheduledDate := Some(form.scheduledDate), status := Some(Pending));
    }
    store.UpdateFollowUp(item.followUp.id, updates);
    store.CreateNotifications([UpdateNotice(actor, item)]);
  }

  // ---------------------------------------------------------------------------------------------
  // Filters

  /** A date filter input: a calendar day (days since the epoch, local time), or empty. */
  datatype DateBounds = DateBounds(start: Option<int>, end: Option<int>)

  const DayMs := 86400000

  /** `${day}T00:00:00`. */
  function StartOfDay(day: int): int {
    day * DayMs
  }

  /** `${day}T23:59:59`. */
  function EndOfDay(day: int): int {
    day * DayMs + 86399000
  }

  /** `isWithinDateRange`, with its early returns. */
  predicate IsWithinDateRange(date: int, b: DateBounds) {
    if b.start.None? && b.end.None? then true
    else if b.start.Some? && date < StartOfDay(b.start.value) then false
    else if b.end.Some? && date > EndOfDay(b.end.value) then false
    else true
  }

  /** The range is the closed interval from the start day's midnight to the end day's 23:59:59:
      every moment of a day inside the bounds passes, and the moments just outside do not. */
  lemma {:induction false} DateRangeBounds(b: DateBounds, day: int, ms: int)
    requires 0 <= ms <= 86399000
    requires b.start.None? || b.start.value <= day
    requires b.end.None? || day <= b.end.value
    ensures IsWithinDateRange(StartOfDay(day) + ms, b)
    ensures b.start.Some? ==> !IsWithinDateRange(StartOfDay(b.start.value) - 1, b)
    ensures b.end.Some? ==> !IsWithinDateRange(EndOfDay(b.end.value) + 1, b)
  {
    if b.start.Some? {
      StartMonotone(b.start.value, day);
    }
    if b.end.Some? {
      StartMonotone(day, b.end.value);
    }
  }

  lemma StartMonotone(a: int, b: int)
    requires a <= b
    ensures StartOfDay(a) <= StartOfDay(b)
  {
    assert StartOfDay(b) - StartOfDay(a) == (b - a) * DayMs;
  }

  /** `isOverdue`: scheduled before now and not completed. */
  predicate IsOverdue(scheduledDate: int, status: FollowUpStatus, now: int) {
    scheduledDate < now && status != Completed
  }

  /** An overdue follow-up stays overdue as time passes, until the update form completes it. */
  lemma OverdueUntilCompleted(f: FollowUp, form: UpdateForm, now: int, later: int)
    requires IsOverdue(f.scheduledDate, f.status, now) && now <= later
    ensures IsOverdue(f.scheduledDate, f.status, later)
    ensures var g := PatchFollowUp(f, UpdatesFor(form, now));
      IsOverdue(g.scheduledDate, g.status, later) <==> form.status != Completed && g.scheduledDate < later
  {
  }

  /** The search keeps rows whose prospect name contains the term (ignoring case) or whose phone
      contains it; `undefined || undefined` drops a row without a prospect. */
  predicate MatchesSearch(item: FollowUpWithDetails, term: string) {
    item.prospect.Some?
    && (Strings.Contains(Strings.ToLower(item.prospect.value.nama), Strings.ToLower(term))
        || Strings.Contains(item.prospect.value.noHp, term))
  }

  datatype StatusFilter = AllStatuses | Only(status: FollowUpStatus)

  predicate HasStatus(s: StatusFilter, item: FollowUpWithDetails) {
    s.AllStatuses? || item.followUp.status == s.status
  }

  function SearchMatcher(term: string): FollowUpWithDetails -> bool {
    (item: FollowUpWithDetails) => MatchesSearch(item, term)
  }

  function StatusMatcher(s: FollowUpStatus): FollowUpWithDetails -> bool {
    (item: FollowUpWithDetails) => item.followUp.status == s
  }

  function DateMatcher(b: DateBounds): FollowUpWithDetails -> bool {
    (item: FollowUpWithDetails) => IsWithinDateRange(item.followUp.scheduledDate, b)
  }

  function BySearch(items: seq<FollowUpWithDetails>, term: string): seq<FollowUpWithDetails> {
    if term != "" then Seqs.Filter(items, SearchMatcher(term)) else items
  }

  function ByStatus(items: seq<FollowUpWithDetails>, s: StatusFilter): seq<FollowUpWithDetails> {
    if s.Only? then Seqs.Filter(items, StatusMatcher(s.status)) else items
  }

  function ByDate(items: seq<FollowUpWithDetails>, b: DateBounds): seq<FollowUpWithDetails> {
    if b.start.Some? || b.end.Some? then Seqs.Filter(items, DateMatcher(b)) else items
  }

  /** The filter effect: search, then status, then date range, each applied only when set. */
  function FilterFollowUps(items: seq<FollowUpWithDetails>, term: string, s: StatusFilter, b: DateBounds)
    : (r: seq<FollowUpWithDetails>)
    ensures forall x :: x in r <==>
      && x in items
      && (term == "" || MatchesSearch(x, term))
      && HasStatus(s, x)
      && IsWithinDateRange(x.followUp.scheduledDate, b)
  {
    ByDate(ByStatus(BySearch(items, term), s), b)
  }

  /** The filtered list keeps the rows it keeps in their original order. */
  lemma FilterFollowUpsOrdered(items: seq<FollowUpWithDetails>, term: string, s: StatusFilter, b: DateBounds)
    ensures Seqs.IsSublist(FilterFollowUps(items, term, s, b), items)
  {
    var s1 := BySearch(items, term);
    var s2 := ByStatus(s1, s);
    SublistRefl(items);
    SublistRefl(s1);
    SublistRefl(s2);
    if term != "" { Seqs.FilterSublist(items, SearchMatcher(term)); }
    if s.Only? { Seqs.FilterSublist(s1, StatusMatcher(s.status)); }
    if b.start.Some? || b.end.Some? { Seqs.FilterSublist(s2, DateMatcher(b)); }
    Seqs.SublistTransitive(s2, s1, items);
    Seqs.SublistTransitive(ByDate(s2, b), s2, items);
  }

  lemma {:induction false} SublistRefl<T>(s: seq<T>)
    ensures Seqs.IsSublist(s, s)
    decreases |s|
  {
    if s != [] {
      SublistRefl(s[1..]);
    }
  }

  /** With no search, the status `all` and no dates, every row is listed. */
  lemma NoFilterKeepsAll(items: seq<FollowUpWithDetails>)
    ensures FilterFollowUps(items, "", AllStatuses, DateBounds(None, None)) == items
  {
  }

  // ---------------------------------------------------------------------------------------------
  // Load scope and gating

  /** The params of `loadFollowUps`: only a sales user is scoped, to follow-ups assigned to them. */
  function LoadParams(profile: Profile): (r: seq<ApiClient.Param>)
    ensures profile.role == Sales ==> r == [ApiClient.Param("assignedTo", Json.Str(profile.id))]
    ensures profile.role == Sales && profile.id != "" ==> ApiClient.KeptParams(r) == r
    ensures profile.role == Admin ==> ApiClient.KeptParams(r) == []
  {
    [ApiClient.Param("assignedTo", if profile.role == Sales then Json.Str(profile.id) else Json.Undefined)]
  }

  /** The request a sales user sends carries exactly one query pair, their own id; an admin's request
      has no query string at all. */
  lemma LoadPathScoped(profile: Profile, encode: string -> string)
    ensures profile.role == Sales && profile.id != "" ==>
      ApiClient.RequestPath("/follow-ups", LoadParams(profile), encode)
        == "/follow-ups?" + ApiClient.PairText(ApiClient.Param("assignedTo", Json.Str(profile.id)), encode)
    ensures profile.role == Admin ==> ApiClient.RequestPath("/follow-ups", LoadParams(profile), encode) == "/follow-ups"
  {
    var ps := LoadParams(profile);
    if profile.role == Sales && profile.id != "" {
      assert ApiClient.KeptParams(ps) == ps;
      assert ApiClient.PairsOf(ps, encode) == [ApiClient.PairText(ps[0], encode)];
      assert Strings.Join([ApiClient.PairText(ps[0], encode)], "&") == ApiClient.PairText(ps[0], encode);
    }
  }

  /** The update button: only a sales user, only on a row that is not completed. */
  function ShowsUpdateButton(role: Role, f: FollowUp): (shown: bool)
    ensures shown ==> role == Sales && f.status != Completed
    ensures role == Sales && f.status != Completed ==> shown
  {
    role == Sales && f.status != Completed
  }
}
