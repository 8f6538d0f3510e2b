/** The prospect list page: search, create and edit with the admin fan-out, follow-up creation, the
    follow-up form defaults, the load scope and the button gating. */
module ProspectsPage {
  import opened Wrappers
  import opened Domain
  import opened ClientStore
  import ApiClient
  import Json
  import Seqs
  import Strings

  /** The four text fields of the prospect form. */
  datatype ProspectForm = ProspectForm(nama: string, noHp: string, alamat: string, kebutuhan: string)

  /** The follow-up form; the date input stays empty until the admin picks one. */
  datatype FollowUpForm = FollowUpForm(assignedTo: Id, scheduledDate: Option<int>, notes: string)

  /** The search keeps a row whose name or needs contain the term ignoring case, or whose phone
      contains it as typed. */
  predicate MatchesSearch(p: Prospect, term: string) {
    Strings.Contains(Strings.ToLower(p.nama), Strings.ToLower(term))
    || Strings.Contains(p.noHp, term)
    || Strings.Contains(Strings.ToLower(p.kebutuhan), Strings.ToLower(term))
  }

  function SearchMatcher(term: string): Prospect -> bool {
    (p: Prospect) => MatchesSearch(p, term)
  }

  function SearchProspects(prospects: seq<Prospect>, term: string): (r: seq<Prospect>)
    ensures forall p :: p in r <==> p in prospects && MatchesSearch(p, term)
  {
    Seqs.Filter(prospects, SearchMatcher(term))
  }

  /** The search keeps its rows in list order; the empty term keeps every row (`includes('')`). */
  lemma SearchOrderedAndTotal(prospects: seq<Prospect>, term: string)
    ensures Seqs.IsSublist(SearchProspects(prospects, term), prospects)
    ensures term == "" ==> SearchProspects(prospects, term) == prospects
  {
    Seqs.FilterSublist(prospects, SearchMatcher(term));
    if term == "" {
      forall i | 0 <= i < |prospects| ensures MatchesSearch(prospects[i], term) {
        Strings.ContainsEmpty(prospects[i].noHp);
      }
      Seqs.FilterAll(prospects, SearchMatcher(term));
    }
  }

  /** `openEditModal`: the form holds the prospect's four text fields. */
  function EditForm(p: Prospect): (f: ProspectForm)
    ensures f.nama == p.nama && f.noHp == p.noHp && f.alamat == p.alamat && f.kebutuhan == p.kebutuhan
  {
    ProspectForm(p.nama, p.noHp, p.alamat, p.kebutuhan)
  }

  /** The edit payload is the form itself: four columns, never status or owner. */
  function EditPatch(f: ProspectForm): (u: ProspectPatch)
    ensures u.status.None?
    ensures u.nama == Some(f.nama) && u.noHp == Some(f.noHp) && u.alamat == Some(f.alamat)
    ensures u.kebutuhan == Some(f.kebutuhan)
  {
    ProspectPatch(Some(f.nama), Some(f.noHp), Some(f.alamat), Some(f.kebutuhan), None)
  }

  /** Editing keeps the status and the owning sales user of the prospect. */
  lemma EditKeepsStatusAndOwner(p: Prospect, f: ProspectForm)
    ensures PatchProspect(p, EditPatch(f)).status == p.status
    ensures PatchProspect(p, EditPatch(f)).salesId == p.salesId
    ensures PatchProspect(p, EditPatch(f)).nama == f.nama
  {
  }

  /** The create payload: the form, owned by the current user, waiting for a follow-up. */
  function CreateDraft(f: ProspectForm, owner: Profile): (d: ProspectDraft)
    ensures d.salesId == owner.id && d.status == MenungguFollowUp
    ensures d.nama == f.nama && d.noHp == f.noHp && d.alamat == f.alamat && d.kebutuhan == f.kebutuhan
  {
    ProspectDraft(f.nama, f.noHp, f.alamat, f.kebutuhan, owner.id, MenungguFollowUp)
  }

  const NewProspectTitle := "Prospek Baru"
  const NewProspectMessageMiddle := " menambahkan prospek baru: "

  function NewProspectNotice(author: Profile, f: ProspectForm, prospectId: Id, admin: Profile): NotificationDraft {
    NotificationDraft(admin.id, NewProspect, NewProspectTitle, author.fullName + NewProspectMessageMiddle + f.nama,
      prospectId, ProspectRef, false)
  }

  /** `adminProfiles.map(...)`: one notification per admin, in the order of the admin list. */
  function AdminFanOut(admins: seq<Profile>, author: Profile, f: ProspectForm, prospectId: Id): (r: seq<NotificationDraft>)
    ensures |r| == |admins|
    ensures forall i :: 0 <= i < |admins| ==>
      && r[i].userId == admins[i].id && r[i].kind == NewProspect
      && r[i].referenceId == prospectId && r[i].referenceType == ProspectRef && !r[i].isRead
  {
    seq(|admins|, i requires 0 <= i < |admins| => NewProspectNotice(author, f, prospectId, admins[i]))
  }

  /** Every admin is notified, and every notification goes to an admin. */
  lemma FanOutReachesEveryAdmin(admins: seq<Profile>, author: Profile, f: ProspectForm, prospectId: Id)
    ensures forall a :: a in admins ==> exists n :: n in AdminFanOut(admins, author, f, prospectId) && n.userId == a.id
    ensures forall n :: n in AdminFanOut(admins, author, f, prospectId) ==> exists a :: a in admins && n.userId == a.id
  {
    var r := AdminFanOut(admins, author, f, prospectId);
    forall a | a in admins
      ensures exists n :: n in r && n.userId == a.id
    {
      var i :| 0 <= i < |admins| && admins[i] == a;
      assert r[i] in r;
    }
    forall n | n in r
      ensures exists a :: a in admins && n.userId == a.id
    {
      var i :| 0 <= i < |r| && r[i] == n;
      assert admins[i] in admins;
    }
  }

  /** `handleSubmit`: without a profile nothing happens; with a selected prospect only its four text
      columns are updated; otherwise the prospect is created and every admin is notified. */
  method HandleSubmit(store: Store, profile: Option<Profile>, selected: Option<Prospect>, form: ProspectForm,
                      newId: Id, now: int)
    modifies store
    ensures profile.None? ==>
      store.calls == old(store.calls) && store.prospects == old(store.prospects)
      && store.notifications == old(store.notifications)
    ensures profile.Some? && selected.Some? ==>
      && store.calls == old(store.calls) + [UpdateProspectCall(selected.value.id, EditPatch(form))]
      && store.prospects == UpdateAt(old(store.prospects), selected.value.id, ProspectPatcher(EditPatch(form)))
      && store.notifications == old(store.notifications)
    ensures profile.Some? && selected.None? ==>
      && store.calls == old(store.calls)
           + [CreateProspectCall(CreateDraft(form, profile.value)),
              CreateNotificationsCall(AdminFanOut(store.ListProfiles(Admin), profile.value, form, newId))]
      && store.prospects == old(store.prospects)[newId := CreatedProspect(CreateDraft(form, profile.value), newId, now)]
      && store.notifications == old(store.notifications) + AdminFanOut(store.ListProfiles(Admin), profile.value, form, newId)
    ensures store.profiles == old(store.profiles) && store.followUps == old(store.followUps)
  {
    if profile.None? {
      return;
    }
    var me := profile.value;
    if selected.Some? {
      store.UpdateProspect(selected.value.id, EditPatch(form));
    } else {
      var created := store.CreateProspect(CreateDraft(form, me), newId, now);
      var admins := store.ListProfiles(Admin);
      store.CreateNotifications(AdminFanOut(admins, me, form, created.id));
    }
  }

  /** `openFollowUpModal`: assigned to the prospect's own sales user, with no date and no notes. */
  function OpenFollowUpForm(p: Prospect): (f: FollowUpForm)
    ensures f.assignedTo == p.salesId && f.scheduledDate.None? && f.notes == ""
  {
    FollowUpForm(p.salesId, None, "")
  }

  function FollowUpDraftFor(p: Prospect, admin: Profile, f: FollowUpForm, date: int): (d: FollowUpDraft)
    ensures d.prospectId == p.id && d.assignedBy == admin.id && d.assignedTo == f.assignedTo
    ensures d.status == Pending && d.scheduledDate == date && d.notes == f.notes
  {
    FollowUpDraft(p.id, admin.id, f.assignedTo, date, f.notes, Pending)
  }

  const AssignedTitle := "Follow-Up Baru"
  const AssignedMessagePrefix := "Anda ditugaskan untuk follow-up prospek: "

  function AssignedNotice(p: Prospect, f: FollowUpForm, followUpId: Id): (n: NotificationDraft)
    ensures n.userId == f.assignedTo && n.kind == FollowUpAssigned
    ensures n.referenceId == followUpId && n.referenceType == FollowUpRef && !n.isRead
  {
    NotificationDraft(f.assignedTo, FollowUpAssigned, AssignedTitle, AssignedMessagePrefix + p.nama,
      followUpId, FollowUpRef, false)
  }

  /** `handleCreateFollowUp`: the follow-up is created pending by the current admin, then the prospect
      moves to dalam_follow_up, then the assigned sales user is notified of the new follow-up. The
      date input is `required`, so the form is only submitted with a date. */
  method HandleCreateFollowUp(store: Store, profile: Option<Profile>, selected: Option<Prospect>,
                              form: FollowUpForm, newId: Id, now: int)
    requires form.scheduledDate.Some?
    modifies store
    ensures profile.None? || selected.None? ==>
      store.calls == old(store.calls) && store.prospects == old(store.prospects)
      && store.followUps == old(store.followUps) && store.notifications == old(store.notifications)
    ensures profile.Some? && selected.Some? ==>
      var d := FollowUpDraftFor(selected.value, profile.value, form, form.scheduledDate.value);
      && store.calls == old(store.calls)
           + [CreateFollowUpCall(d), UpdateProspectCall(selected.value.id, StatusPatch(DalamFollowUp)),
              CreateNotificationsCall([AssignedNotice(selected.value, form, newId)])]
      && store.followUps == old(store.followUps)[newId := CreatedFollowUp(d, newId, now)]
      && store.prospects == UpdateAt(old(store.prospects), selected.value.id, ProspectPatcher(StatusPatch(DalamFollowUp)))
      && store.notifications == old(store.notifications) + [AssignedNotice(selected.value, form, newId)]
    ensures store.profiles == old(store.profiles)
  {
    if profile.None? || selected.None? {
      return;
    }
    var p := selected.value;
    var followUp := store.CreateFollowUp(FollowUpDraftFor(p, profile.value, form, form.scheduledDate.value), newId, now);
    store.UpdateProspect(p.id, StatusPatch(DalamFollowUp));
    store.CreateNotifications([AssignedNotice(p, form, followUp.id)]);
  }

  /** The params of `loadProspects`: a sales user sees only their own prospects. */
  function LoadParams(profile: Profile): (r: seq<ApiClient.Param>)
    ensures profile.role == Sales ==> r == [ApiClient.Param("salesId", Json.Str(profile.id))]
    ensures profile.role == Sales && profile.id != "" ==> ApiClient.KeptParams(r) == r
    ensures profile.role == Admin ==> ApiClient.KeptParams(r) == []
  {
    [ApiClient.Param("salesId", if profile.role == Sales then Json.Str(profile.id) else Json.Undefined)]
  }

  /** The page lists through `api.listProspectsWithSales`, which requests this resource. */
  const ListingPath := "/prospects/with-sales"

  /** The request a sales user sends carries exactly one query pair, their own id; an admin's request
      has no query string at all. */
  lemma LoadPathScoped(profile: Profile, encode: string -> string)
    ensures profile.role == Sales && profile.id != "" ==>
      ApiClient.RequestPath(ListingPath, LoadParams(profile), encode)
        == ListingPath + "?" + ApiClient.PairText(ApiClient.Param("salesId", Json.Str(profile.id)), encode)
    ensures profile.role == Admin ==> ApiClient.RequestPath(ListingPath, LoadParams(profile), encode) == ListingPath
  {
    var ps := LoadParams(profile);
    if profile.role == Sales && profile.id != "" {
      assert ApiClient.KeptParams(ps) == ps;
      assert ApiClient.PairsOf(ps, encode) == [ApiClient.PairText(ps[0], encode)];
      assert Strings.Join([ApiClient.PairText(ps[0], encode)], "&") == ApiClient.PairText(ps[0], encode);
    }
  }

  /** The three buttons of the page. */
  function ShowsAddButton(role: Role): (shown: bool)
    ensures shown <==> role == Sales
  {
    role == Sales
  }

  function ShowsEditButton(viewer: Profile, p: Prospect): (shown: bool)
    ensures shown <==> viewer.role == Sales && p.salesId == viewer.id
  {
    viewer.role == Sales && p.salesId == viewer.id
  }

  function ShowsFollowUpButton(role: Role, p: Prospect): (shown: bool)
    ensures shown <==> role == Admin && p.status == MenungguFollowUp
  {
    role == Admin && p.status == MenungguFollowUp
  }

  /** No one sees both the edit and the follow-up button on the same row. */
  lemma GatingExclusive(viewer: Profile, p: Prospect)
    ensures !(ShowsEditButton(viewer, p) && ShowsFollowUpButton(viewer.role, p))
  {
  }
}
