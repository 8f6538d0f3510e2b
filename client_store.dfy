/** The data behind the client's `api` object, seen from the pages: the records the server holds and
    the ordered log of write calls the pages make. Each write method has the server's effect on the
    records (an update of a missing id changes nothing, an id is assigned on create). */
module ClientStore {
  import opened Wrappers
  import opened Domain
  import Seqs

  /** The columns a PUT /prospects/:id payload carries; `None` is a key left out of the payload. */
  datatype ProspectPatch = ProspectPatch(
    nama: Option<string>, noHp: Option<string>, alamat: Option<string>, kebutuhan: Option<string>,
    status: Option<ProspectStatus>)

  /** The columns a PUT /follow-ups/:id payload carries. */
  datatype FollowUpPatch = FollowUpPatch(
    status: Option<FollowUpStatus>, notes: Option<string>, scheduledDate: Option<int>, completedAt: Option<int>)

  /** The payload of `api.createProspect` (everything but id and timestamps). */
  datatype ProspectDraft = ProspectDraft(
    nama: string, noHp: string, alamat: string, kebutuhan: string, salesId: Id, status: ProspectStatus)

  /** The payload of `api.createFollowUp`. */
  datatype FollowUpDraft = FollowUpDraft(
    prospectId: Id, assignedBy: Id, assignedTo: Id, scheduledDate: int, notes: string, status: FollowUpStatus)

  /** One write call, in the order the page issues it. */
  datatype Call =
    | CreateProspectCall(prospectDraft: ProspectDraft)
    | UpdateProspectCall(prospectId: Id, prospectPatch: ProspectPatch)
    | CreateFollowUpCall(followUpDraft: FollowUpDraft)
    | UpdateFollowUpCall(followUpId: Id, followUpPatch: FollowUpPatch)
    | CreateNotificationsCall(drafts: seq<NotificationDraft>)

  function StatusPatch(status: ProspectStatus): ProspectPatch {
    ProspectPatch(None, None, None, None, Some(status))
  }

  /** A patch sets exactly the columns it carries; id, owner and creation time never change. */
  function PatchProspect(p: Prospect, u: ProspectPatch): (r: Prospect)
    ensures r.id == p.id && r.salesId == p.salesId && r.createdAt == p.createdAt
    ensures u.nama.Some? ==> r.nama == u.nama.value
    ensures u.nama.None? ==> r.nama == p.nama
    ensures u.noHp.Some? ==> r.noHp == u.noHp.value
    ensures u.noHp.None? ==> r.noHp == p.noHp
    ensures u.alamat.Some? ==> r.alamat == u.alamat.value
    ensures u.alamat.None? ==> r.alamat == p.alamat
    ensures u.kebutuhan.Some? ==> r.kebutuhan == u.kebutuhan.value
    ensures u.kebutuhan.None? ==> r.kebutuhan == p.kebutuhan
    ensures u.status.Some? ==> r.status == u.status.value
    ensures u.status.None? ==> r.status == p.status
  {
    p.(nama := u.nama.GetOr(p.nama), noHp := u.noHp.GetOr(p.noHp), alamat := u.alamat.GetOr(p.alamat),
       kebutuhan := u.kebutuhan.GetOr(p.kebutuhan), status := u.status.GetOr(p.status))
  }

  /** Applying the same patch twice is applying it once. */
  lemma PatchProspectIdempotent(p: Prospect, u: ProspectPatch)
    ensures PatchProspect(PatchProspect(p, u), u) == PatchProspect(p, u)
  {
  }

  /** The same for a follow-up; prospect, assignment and creation time never change. */
  function PatchFollowUp(f: FollowUp, u: FollowUpPatch): (r: FollowUp)
    ensures r.id == f.id && r.prospectId == f.prospectId && r.assignedBy == f.assignedBy
    ensures r.assignedTo == f.assignedTo && r.createdAt == f.createdAt
    ensures u.status.Some? ==> r.status == u.status.value
    ensures u.status.None? ==> r.status == f.status
    ensures u.notes.Some? ==> r.notes == u.notes.value
    ensures u.notes.None? ==> r.notes == f.notes
    ensures u.scheduledDate.Some? ==> r.scheduledDate == u.scheduledDate.value
    ensures u.scheduledDate.None? ==> r.scheduledDate == f.scheduledDate
    ensures u.completedAt.Some? ==> r.completedAt == u.completedAt
    ensures u.completedAt.None? ==> r.completedAt == f.completedAt
  {
    f.(status := u.status.GetOr(f.status), notes := u.notes.GetOr(f.notes),
       scheduledDate := u.scheduledDate.GetOr(f.scheduledDate),
       completedAt := if u.completedAt.Some? then u.completedAt else f.completedAt)
  }

  function CreatedProspect(d: ProspectDraft, id: Id, now: int): Prospect {
    Prospect(id, d.nama, d.noHp, d.alamat, d.kebutuhan, d.status, d.salesId, now)
  }

  function CreatedFollowUp(d: FollowUpDraft, id: Id, now: int): FollowUp {
    FollowUp(id, d.prospectId, d.assignedBy, d.assignedTo, d.scheduledDate, d.status, d.notes, None, now)
  }

  /** The map after `UPDATE ... WHERE id = ?`. */
  function UpdateAt<T>(m: map<Id, T>, id: Id, f: T -> T): (r: map<Id, T>)
    ensures r.Keys == m.Keys
    ensures id in m ==> r[id] == f(m[id])
    ensures forall other :: other in m && other != id ==> r[other] == m[other]
  {
    if id in m then m[id := f(m[id])] else m
  }

  function ProspectPatcher(u: ProspectPatch): Prospect -> Prospect {
    p => PatchProspect(p, u)
  }

  function FollowUpPatcher(u: FollowUpPatch): FollowUp -> FollowUp {
    f => PatchFollowUp(f, u)
  }

  predicate HasRole(role: Role, p: Profile) {
    p.role == role
  }

  function RoleMatcher(role: Role): Profile -> bool {
    p => HasRole(role, p)
  }

  predicate ForUser(userId: Id, n: Notification) {
    n.userId == userId
  }

  function UserMatcher(userId: Id): Notification -> bool {
    (n: Notification) => ForUser(userId, n)
  }

  /** `api.listNotifications({ userId, limit })`: the user's notifications, newest first, at most
      `limit` of them; `all` is the table in `created_at DESC` order. The result is the leading
      part of the user's own notifications in table order: all of them when there are at most
      `limit`, otherwise exactly the first `limit`. */
  function FetchNotifications(all: seq<Notification>, userId: Id, limit: nat): (r: seq<Notification>)
    ensures |r| <= limit
    ensures forall n :: n in r ==> n in all && n.userId == userId
    ensures Seqs.IsSublist(r, all)
    ensures var mine := Seqs.Filter(all, UserMatcher(userId));
      |r| <= |mine| && r == mine[..|r|] && (|mine| <= limit ==> r == mine) && (|mine| > limit ==> |r| == limit)
  {
    var mine := Seqs.Filter(all, UserMatcher(userId));
    var r := Seqs.Take(mine, limit);
    assert forall n :: n in r ==> n in mine;
    Seqs.FilterSublist(all, UserMatcher(userId));
    Seqs.PrefixSublist(mine, |r|);
    Seqs.SublistTransitive(r, mine, all);
    r
  }

  class Store {
    var profiles: seq<Profile>
    var prospects: map<Id, Prospect>
    var followUps: map<Id, FollowUp>
    var notifications: seq<NotificationDraft>
    var calls: seq<Call>

    constructor(profiles: seq<Profile>, prospects: map<Id, Prospect>, followUps: map<Id, FollowUp>)
      ensures this.profiles == profiles && this.prospects == prospects && this.followUps == followUps
      ensures notifications == [] && calls == []
    {
      this.profiles := profiles;
      this.prospects := prospects;
      this.followUps := followUps;
      notifications := [];
      calls := [];
    }

    /** `api.listProfiles(role)`: the profiles with that role, in list order. */
    function ListProfiles(role: Role): (r: seq<Profile>)
      reads this
      ensures forall p :: p in r <==> p in profiles && p.role == role
    {
      Seqs.Filter(profiles, RoleMatcher(role))
    }

    /** `api.createProspect`: the server stores the draft under a fresh id and returns the row. */
    method CreateProspect(d: ProspectDraft, id: Id, now: int) returns (p: Prospect)
      modifies this
      ensures p == CreatedProspect(d, id, now)
      ensures prospects == old(prospects)[id := p]
      ensures calls == old(calls) + [CreateProspectCall(d)]
      ensures profiles == old(profiles) && followUps == old(followUps) && notifications == old(notifications)
    {
      p := CreatedProspect(d, id, now);
      prospects := prospects[id := p];
      calls := calls + [CreateProspectCall(d)];
    }

    /** `api.updateProspect`. */
    method UpdateProspect(id: Id, u: ProspectPatch)
      modifies this
      ensures prospects == UpdateAt(old(prospects), id, ProspectPatcher(u))
      ensures calls == old(calls) + [UpdateProspectCall(id, u)]
      ensures profiles == old(profiles) && followUps == old(followUps) && notifications == old(notifications)
    {
      prospects := UpdateAt(prospects, id, ProspectPatcher(u));
      calls := calls + [UpdateProspectCall(id, u)];
    }

    /** `api.createFollowUp`. */
    method CreateFollowUp(d: FollowUpDraft, id: Id, now: int) returns (f: FollowUp)
      modifies this
      ensures f == CreatedFollowUp(d, id, now)
      ensures followUps == old(followUps)[id := f]
      ensures calls == old(calls) + [CreateFollowUpCall(d)]
      ensures profiles == old(profiles) && prospects == old(prospects) && notifications == old(notifications)
    {
      f := CreatedFollowUp(d, id, now);
      followUps := followUps[id := f];
      calls := calls + [CreateFollowUpCall(d)];
    }

    /** `api.updateFollowUp`. */
    method UpdateFollowUp(id: Id, u: FollowUpPatch)
      modifies this
      ensures followUps == UpdateAt(old(followUps), id, FollowUpPatcher(u))
      ensures calls == old(calls) + [UpdateFollowUpCall(id, u)]
      ensures profiles == old(profiles) && prospects == old(prospects) && notifications == old(notifications)
    {
      followUps := UpdateAt(followUps, id, FollowUpPatcher(u));
      calls := calls + [UpdateFollowUpCall(id, u)];
    }

    /** `api.createNotifications`: every draft is stored, in order. */
    method CreateNotifications(drafts: seq<NotificationDraft>)
      modifies this
      ensures notifications == old(notifications) + drafts
      ensures calls == old(calls) + [CreateNotificationsCall(drafts)]
      ensures profiles == old(profiles) && prospects == old(prospects) && followUps == old(followUps)
    {
      notifications := notifications + drafts;
      calls := calls + [CreateNotificationsCall(drafts)];
    }
  }
}
