/** The admin panel: the user search and status filter, the delete and
    suspend actions, the stats cards' fallbacks, and the data refresh. */
module AdminPanel {
  import opened Values
  import opened Text
  import opened Records
  import opened Http

  const AllStatuses := "all"
  const Suspended := "suspended"
  const NoGrowth := "+0 this week"
  const NoStorage := "0 GB"
  const FetchFailed := "Failed to fetch admin data"
  const ActionFailed := "Failed to perform action"
  const UserDeleted := "User deleted successfully"
  const UserSuspended := "User suspended successfully"

  /** The user-list test: the term is in the name or the email, ignoring
      case, and the status matches the filter. */
  predicate Keeps(term: string, filter: string, u: User) {
    (Contains(Lower(u.name), Lower(term)) || Contains(Lower(u.email), Lower(term)))
    && (filter == AllStatuses || u.status == filter)
  }

  /** `filteredUsers`; `FilterIsSubsequence` gives its order and completeness. */
  function FilteredUsers(users: seq<User>, term: string, filter: string): seq<User> {
    Filter(users, u => Keeps(term, filter, u))
  }

  /** The search ignores case in the term as well as in the names: a
      lower-cased term finds the same users. */
  lemma SearchIgnoresCase(users: seq<User>, term: string, filter: string)
    ensures FilteredUsers(users, Lower(term), filter) == FilteredUsers(users, term, filter)
  {
    LowerIdempotent(term);
    FilterAgree(users, u => Keeps(Lower(term), filter, u), u => Keeps(term, filter, u));
  }

  /** `users.filter(u => u._id !== userId)`. */
  function WithoutUser(users: seq<User>, id: string): (r: seq<User>)
    ensures forall i :: 0 <= i < |r| ==> r[i].id != id && r[i] in users
    ensures forall u :: u in users && u.id != id ==> u in r
    ensures SubsequenceOf(r, users)
  {
    if users == [] then []
    else
      var rest := WithoutUser(users[1..], id);
      if users[0].id != id then [users[0]] + rest else rest
  }

  /** Removing a user that is not there changes nothing. */
  lemma {:induction false} WithoutAbsent(users: seq<User>, id: string)
    requires forall i :: 0 <= i < |users| ==> users[i].id != id
    ensures WithoutUser(users, id) == users
    decreases |users|
  {
    if users != [] {
      WithoutAbsent(users[1..], id);
    }
  }

  /** `users.map(u => u._id === userId ? { ...u, status: 'suspended' } : u)`. */
  function Suspend(users: seq<User>, id: string): (r: seq<User>)
    ensures |r| == |users|
    ensures forall i :: 0 <= i < |r| ==>
              if users[i].id == id then r[i] == users[i].(status := Suspended) else r[i] == users[i]
  {
    if users == [] then [] else [if users[0].id == id then users[0].(status := Suspended) else users[0]] + Suspend(users[1..], id)
  }

  /** Suspending twice is suspending once. */
  lemma SuspendIdempotent(users: seq<User>, id: string)
    ensures Suspend(Suspend(users, id), id) == Suspend(users, id)
  {
  }

  /** Deleting a user after suspending them is deleting them. */
  lemma {:induction false} DeleteAfterSuspend(users: seq<User>, id: string)
    ensures WithoutUser(Suspend(users, id), id) == WithoutUser(users, id)
    decreases |users|
  {
    if users != [] {
      DeleteAfterSuspend(users[1..], id);
      assert Suspend(users, id)[1..] == Suspend(users[1..], id);
    }
  }

  /** The parts of `/admin/stats` the cards read. The reply nests the two
      weekly numbers as `weeklyStats.newUsers` and `weeklyStats.newFiles`;
      here they are flattened into `newUsers` and `newFiles`, and a missing
      `weeklyStats` object is both of them `None`. */
  datatype Stats = Stats(totalUsers: Option<int>, activeUsers: Option<int>, totalFiles: Option<int>,
                         totalStorage: Option<string>, totalAnalyses: Option<int>,
                         newUsers: Option<int>, newFiles: Option<int>)

  const NoStats := Stats(None, None, None, None, None, None, None)

  /** `+N this week` when the weekly number is there and not 0. */
  function WeeklyChange(n: Option<int>): (r: string)
    ensures (n.None? || n.value == 0) ==> r == NoGrowth
    ensures n.Some? && n.value != 0 ==> r == "+" + IntToString(n.value) + " this week"
  {
    if n.Some? && n.value != 0 then "+" + IntToString(n.value) + " this week" else NoGrowth
  }

  datatype Card = Card(title: string, value: Json, change: string)

  /** The four stats cards. The second card's `change` is the rounded
      percentage `Math.round(active / total * 100)` followed by "% active";
      that is a floating-point computation, so here the text is left empty
      and `ActiveRatio` gives the fraction it is computed from. */
  function StatsCards(s: Stats): (cards: seq<Card>)
    ensures |cards| == 4
    ensures cards[0].value == JNum(NumberOr(s.totalUsers, 0)) && cards[0].change == WeeklyChange(s.newUsers)
    ensures cards[1].value == JNum(NumberOr(s.activeUsers, 0))
    ensures cards[2].value == JNum(NumberOr(s.totalFiles, 0)) && cards[2].change == WeeklyChange(s.newFiles)
    ensures cards[3].value == JStr(OrElse(s.totalStorage, NoStorage))
    ensures cards[3].change == IntToString(NumberOr(s.totalAnalyses, 0)) + " analyses created"
  {
    [ Card("Total Users", JNum(NumberOr(s.totalUsers, 0)), WeeklyChange(s.newUsers)),
      Card("Active Users", JNum(NumberOr(s.activeUsers, 0)), ""),
      Card("Total Files", JNum(NumberOr(s.totalFiles, 0)), WeeklyChange(s.newFiles)),
      Card("Storage Used", JStr(OrElse(s.totalStorage, NoStorage)), IntToString(NumberOr(s.totalAnalyses, 0)) + " analyses created") ]
  }

  /** The fraction behind "% active": active users over total users, with a
      total of 1 when it is missing or 0, so the division is always defined. */
  function ActiveRatio(s: Stats): (r: (int, int))
    ensures r.1 != 0
    ensures r.0 == NumberOr(s.activeUsers, 0)
    ensures r.1 == if s.totalUsers.Some? && s.totalUsers.value != 0 then s.totalUsers.value else 1
  {
    (NumberOr(s.activeUsers, 0), NumberOr(s.totalUsers, 1))
  }

  /** Empty stats show zeros everywhere. */
  lemma EmptyStatsCards()
    ensures var cards := StatsCards(NoStats);
            cards[0].value == JNum(0) && cards[0].change == NoGrowth && cards[3].value == JStr(NoStorage)
            && cards[3].change == "0 analyses created"
    ensures ActiveRatio(NoStats) == (0, 1)
  {
  }

  datatype Action = View | Edit | Delete | SuspendUser

  class Panel {
    var users: seq<User>
    var stats: Stats
    var analytics: Json
    var loading: bool
    var refreshing: bool
    var searchTerm: string
    var filterStatus: string

    constructor ()
      ensures users == [] && stats == NoStats && analytics == JObj(map[]) && loading && !refreshing
      ensures searchTerm == "" && filterStatus == AllStatuses
    {
      users := [];
      stats := NoStats;
      analytics := JObj(map[]);
      loading := true;
      refreshing := false;
      searchTerm := "";
      filterStatus := AllStatuses;
    }

    /** Users, then stats, then analytics, each request only after the one
        before succeeded; whatever happens, both flags end false. The first
        failure ends the fetch with the fixed error toast. */
    method FetchData(usersReply: Reply<seq<User>>, statsReply: Reply<Stats>, analyticsReply: Reply<Json>)
      returns (toast: Option<string>)
      modifies this
      ensures toast.None? <==> usersReply.Ok? && statsReply.Ok? && analyticsReply.Ok?
      ensures toast.Some? ==> toast.value == FetchFailed
      ensures !loading && !refreshing
      ensures users == (if usersReply.Ok? then usersReply.body else old(users))
      ensures stats == (if usersReply.Ok? && statsReply.Ok? then statsReply.body else old(stats))
      ensures analytics == (if usersReply.Ok? && statsReply.Ok? && analyticsReply.Ok? then analyticsReply.body
                            else old(analytics))
      ensures searchTerm == old(searchTerm) && filterStatus == old(filterStatus)
    {
      refreshing := true;
      toast := Some(FetchFailed);
      if usersReply.Ok? {
        users := usersReply.body;
        if statsReply.Ok? {
          stats := statsReply.body;
          if analyticsReply.Ok? {
            analytics := analyticsReply.body;
            toast := None;
          }
        }
      }
      loading := false;
      refreshing := false;
    }

    /** 'view' and 'edit' only toast, naming the user. A confirmed 'delete'
        whose request succeeds drops the users with that id; a 'suspend'
        whose request succeeds marks them suspended; each then toasts its
        success, and a failed request toasts the fixed error. Returns
        whether a request was sent, whether a refresh was started, and the
        toast. */
    method HandleUserAction(action: Action, id: string, confirmed: bool, reply: Reply<Json>)
      returns (sent: bool, refresh: bool, toast: Option<string>)
      modifies this
      ensures sent <==> action == SuspendUser || (action == Delete && confirmed)
      ensures refresh <==> sent && reply.Ok?
      ensures action == Delete && confirmed && reply.Ok? ==> users == WithoutUser(old(users), id)
      ensures action == SuspendUser && reply.Ok? ==> users == Suspend(old(users), id)
      ensures !refresh ==> users == old(users)
      ensures action == View ==> toast == Some("Viewing user " + id)
      ensures action == Edit ==> toast == Some("Editing user " + id)
      ensures action == Delete && !confirmed ==> toast.None?
      ensures action == Delete && confirmed && reply.Ok? ==> toast == Some(UserDeleted)
      ensures action == SuspendUser && reply.Ok? ==> toast == Some(UserSuspended)
      ensures sent && reply.Err? ==> toast == Some(ActionFailed)
      ensures stats == old(stats) && analytics == old(analytics) && loading == old(loading)
      ensures refreshing == old(refreshing) && searchTerm == old(searchTerm) && filterStatus == old(filterStatus)
    {
      sent, refresh, toast := false, false, None;
      match action {
        case View =>
          toast := Some("Viewing user " + id);
        case Edit =>
          toast := Some("Editing user " + id);
        case Delete =>
          if confirmed {
            sent := true;
            if reply.Ok? {
              users := WithoutUser(users, id);
              refresh := true;
              toast := Some(UserDeleted);
            } else {
              toast := Some(ActionFailed);
            }
          }
        case SuspendUser =>
          sent := true;
          if reply.Ok? {
            users := Suspend(users, id);
            refresh := true;
            toast := Some(UserSuspended);
          } else {
            toast := Some(ActionFailed);
          }
      }
    }
  }
}
