/** The dashboard: which lists each role loads, the statistics counted from them, the recent
    activities and the stat cards. */
module DashboardPage {
  import opened Wrappers
  import opened Domain
  import ApiClient
  import ClientStore
  import Json
  import Seqs

  datatype Stats = Stats(totalProspects: nat, pendingFollowUps: nat, completedFollowUps: nat, totalSales: nat)

  /** One list call: the resource and its params object. */
  datatype ListCall = ListCall(resource: string, params: seq<ApiClient.Param>)

  const RecentLimit := 5

  /** The lists `loadDashboardData` fetches: everything for an admin, the user's own rows for sales. */
  function DashboardCalls(profile: Profile): (r: seq<ListCall>)
    ensures profile.role == Admin ==> |r| == 4 && r[2] == ListCall("/profiles", [ApiClient.Param("role", Json.Str("sales"))])
    ensures profile.role == Admin ==> r[0].params == [] && r[1].params == []
    ensures profile.role == Sales ==> |r| == 3
    ensures profile.role == Sales ==>
      r[0].params == [ApiClient.Param("salesId", Json.Str(profile.id))]
      && r[1].params == [ApiClient.Param("assignedTo", Json.Str(profile.id))]
    ensures r[|r| - 1] == ListCall("/notifications",
      [ApiClient.Param("userId", Json.Str(profile.id)), ApiClient.Param("limit", Json.Num(RecentLimit))])
  {
    var notifications := ListCall("/notifications",
      [ApiClient.Param("userId", Json.Str(profile.id)), ApiClient.Param("limit", Json.Num(RecentLimit))]);
    if profile.role == Admin then
      [ListCall("/prospects", []), ListCall("/follow-ups", []),
       ListCall("/profiles", [ApiClient.Param("role", Json.Str("sales"))]), notifications]
    else
      [ListCall("/prospects", [ApiClient.Param("salesId", Json.Str(profile.id))]),
       ListCall("/follow-ups", [ApiClient.Param("assignedTo", Json.Str(profile.id))]), notifications]
  }

  /** The statistics; `sales` is only fetched for an admin, a sales user always sees 0 sales. */
  function DashboardStats(role: Role, prospects: Option<seq<Prospect>>, followUps: Option<seq<FollowUp>>,
                          sales: Option<seq<Profile>>): (s: Stats)
    ensures s.totalProspects == |ListOr(prospects)|
    ensures s.pendingFollowUps == Seqs.Count(ListOr(followUps), IsPending)
    ensures s.completedFollowUps == Seqs.Count(ListOr(followUps), IsCompleted)
    ensures role == Admin ==> s.totalSales == |ListOr(sales)|
    ensures role == Sales ==> s.totalSales == 0
  {
    var fs := ListOr(followUps);
    Stats(|ListOr(prospects)|, Seqs.Count(fs, IsPending), Seqs.Count(fs, IsCompleted),
          if role == Admin then |ListOr(sales)| else 0)
  }

  /** Pending and completed never overlap, so together they are at most the follow-ups loaded. */
  lemma StatsBounded(role: Role, prospects: Option<seq<Prospect>>, followUps: Option<seq<FollowUp>>,
                     sales: Option<seq<Profile>>)
    ensures var s := DashboardStats(role, prospects, followUps, sales);
      s.pendingFollowUps + s.completedFollowUps <= |ListOr(followUps)|
  {
    Seqs.DisjointCounts(ListOr(followUps), IsPending, IsCompleted);
  }

  datatype Activity = Activity(id: Id, kind: NotificationType, description: string, time: string)

  function ActivityOf(n: Notification, formatTime: int -> string): Activity {
    Activity(n.id, n.kind, n.message, formatTime(n.createdAt))
  }

  /** One activity per fetched notification, in order. A missing list (`if (notifications)`) leaves
      the activities shown before, `previous`, as they were. */
  function RecentActivities(notifications: Option<seq<Notification>>, formatTime: int -> string,
                            previous: seq<Activity>): (r: seq<Activity>)
    ensures notifications.None? ==> r == previous
    ensures notifications.Some? ==> |r| == |notifications.value|
    ensures notifications.Some? ==> forall i :: 0 <= i < |r| ==>
      r[i].id == notifications.value[i].id && r[i].kind == notifications.value[i].kind
      && r[i].description == notifications.value[i].message
  {
    match notifications
    case None => previous
    case Some(ns) => seq(|ns|, i requires 0 <= i < |ns| => ActivityOf(ns[i], formatTime))
  }

  /** After a load, the dashboard lists at most five activities: the user's own five newest
      notifications, or all of them when there are fewer. */
  lemma RecentAtMostFive(all: seq<Notification>, userId: Id, formatTime: int -> string, previous: seq<Activity>)
    ensures var fetched := ClientStore.FetchNotifications(all, userId, RecentLimit);
      var r := RecentActivities(Some(fetched), formatTime, previous);
      |r| <= 5 && (forall i :: 0 <= i < |r| ==> r[i].id == fetched[i].id && fetched[i].userId == userId)
  {
    var fetched := ClientStore.FetchNotifications(all, userId, RecentLimit);
    assert forall i :: 0 <= i < |fetched| ==> fetched[i] in fetched;
  }

  datatype StatCard = StatCard(title: string, value: nat)

  /** Four cards for an admin, three for sales: the same first three values, no Total Sales card. */
  function StatCards(role: Role, s: Stats): (cards: seq<StatCard>)
    ensures role == Admin ==> |cards| == 4 && cards[3] == StatCard("Total Sales", s.totalSales)
    ensures role == Sales ==> |cards| == 3
    ensures forall c :: c in cards && c.title == "Total Sales" ==> role == Admin
    ensures cards[0].value == s.totalProspects && cards[1].value == s.pendingFollowUps
    ensures cards[2].value == s.completedFollowUps
  {
    var rest := [StatCard("Follow-Up Pending", s.pendingFollowUps), StatCard("Follow-Up Selesai", s.completedFollowUps)];
    if role == Admin then [StatCard("Total Prospek", s.totalProspects)] + rest + [StatCard("Total Sales", s.totalSales)]
    else [StatCard("Prospek Saya", s.totalProspects)] + rest
  }
}
