/** The application shell (App.tsx): the signed-in session, the tournament
    catalog, the search box, the global settings, and which screen they
    select. */
module App {
  import opened Types
  import opened Text
  import Seqs
  import Fixtures

  const Dashboard: string := "dashboard"

  const InitialSettings: AdminSettings := AdminSettings(
    "booyah.gaming@ybl",
    "https://api.qrserver.com/v1/create-qr-code/?size=250x250&data=upi://pay?pa=booyah.gaming@ybl&pn=Booyah%20Tournaments&cu=INR",
    "\U{1F525} Grand S1 Tournament registrations are now OPEN! Join for \U{20B9}50,000 prize pool!",
    false)

  function Min(a: int, b: int): int
  {
    if a <= b then a else b
  }

  // ---------------------------------------------------------------------
  // Joining: the debit and the registrant count
  // ---------------------------------------------------------------------

  /** The signed-in user after `fee` is deducted; no balance check is made. */
  function Debited(u: User, fee: int): (r: User)
    ensures r.balance == u.balance - fee
    ensures r.(balance := u.balance) == u
  {
    u.(balance := u.balance - fee)
  }

  /** One more registrant for `t`, capped at its capacity. */
  function Bumped(t: Tournament): Tournament
  {
    t.(registeredTeams := Min(t.maxTeams, t.registeredTeams + 1))
  }

  /** The catalog after a join: each tournament carrying `id` is bumped. */
  function Registered(ts: seq<Tournament>, id: string): (r: seq<Tournament>)
    ensures |r| == |ts|
  {
    if ts == [] then []
    else [if ts[0].id == id then Bumped(ts[0]) else ts[0]] + Registered(ts[1..], id)
  }

  /** The join keeps the catalog's length and order; a tournament with another
      id is untouched, and the one with the id changes only its count, which
      becomes `min(maxTeams, registeredTeams + 1)`. */
  lemma {:induction false} RegisteredAt(ts: seq<Tournament>, id: string, i: nat)
    requires i < |ts|
    ensures ts[i].id != id ==> Registered(ts, id)[i] == ts[i]
    ensures ts[i].id == id ==>
      Registered(ts, id)[i] == ts[i].(registeredTeams := Min(ts[i].maxTeams, ts[i].registeredTeams + 1))
  {
    if i > 0 {
      RegisteredAt(ts[1..], id, i - 1);
    }
  }

  /** After a join no tournament carrying the id exceeds its capacity, and one
      that was already full sits exactly at capacity. */
  lemma RegisteredWithinCapacity(ts: seq<Tournament>, id: string, i: nat)
    requires i < |ts| && ts[i].id == id
    ensures Registered(ts, id)[i].registeredTeams <= Registered(ts, id)[i].maxTeams
    ensures ts[i].registeredTeams >= ts[i].maxTeams ==>
      Registered(ts, id)[i].registeredTeams == ts[i].maxTeams
    ensures ts[i].registeredTeams < ts[i].maxTeams ==>
      Registered(ts, id)[i].registeredTeams == ts[i].registeredTeams + 1
  {
    RegisteredAt(ts, id, i);
  }

  /** `0 <= registeredTeams <= maxTeams` for every tournament. */
  predicate WithinCapacity(ts: seq<Tournament>)
  {
    forall i :: 0 <= i < |ts| ==> 0 <= ts[i].registeredTeams <= ts[i].maxTeams
  }

  /** A join keeps every tournament within its capacity. */
  lemma RegisteredKeepsCapacity(ts: seq<Tournament>, id: string)
    requires WithinCapacity(ts)
    ensures WithinCapacity(Registered(ts, id))
  {
    forall i | 0 <= i < |ts|
      ensures 0 <= Registered(ts, id)[i].registeredTeams <= Registered(ts, id)[i].maxTeams
    {
      RegisteredAt(ts, id, i);
    }
  }

  /** A join on an id no tournament carries changes nothing. */
  lemma {:induction false} RegisteredUnknownId(ts: seq<Tournament>, id: string)
    requires forall i :: 0 <= i < |ts| ==> ts[i].id != id
    ensures Registered(ts, id) == ts
  {
    if ts != [] {
      RegisteredUnknownId(ts[1..], id);
    }
  }

  // ---------------------------------------------------------------------
  // Searching
  // ---------------------------------------------------------------------

  /** The title contains the query, ignoring case. */
  predicate TitleMatches(query: string, t: Tournament)
  {
    Includes(Lower(t.title), Lower(query))
  }

  /** `filteredTournaments`. */
  function Filtered(ts: seq<Tournament>, query: string): seq<Tournament>
  {
    Seqs.Filter(ts, t => TitleMatches(query, t))
  }

  /** The search keeps exactly the matching tournaments, each as often as it
      occurs, in catalog order. */
  lemma FilteredExactly(ts: seq<Tournament>, query: string, t: Tournament)
    ensures t in Filtered(ts, query) <==> t in ts && TitleMatches(query, t)
    ensures multiset(Filtered(ts, query))[t] == if TitleMatches(query, t) then multiset(ts)[t] else 0
    ensures Seqs.IsSubsequence(Filtered(ts, query), ts)
  {
    Seqs.FilterMembership(ts, t => TitleMatches(query, t), t);
    Seqs.FilterCount(ts, t => TitleMatches(query, t), t);
    Seqs.FilterSubsequence(ts, t => TitleMatches(query, t));
  }

  /** An empty search shows the whole catalog. */
  lemma FilteredEmptyQuery(ts: seq<Tournament>)
    ensures Filtered(ts, "") == ts
  {
    forall i | 0 <= i < |ts| ensures TitleMatches("", ts[i]) {
      IncludesEmpty(Lower(ts[i].title));
    }
    Seqs.FilterKeepsAll(ts, t => TitleMatches("", t));
  }

  // ---------------------------------------------------------------------
  // What the shell renders
  // ---------------------------------------------------------------------

  datatype Content =
    | DashboardView | TournamentsView | LeaderboardView | WalletView
    | AdminDashboardView | AdminSettingsView | StrategyView | NoContent

  datatype Screen = AuthScreen | MaintenanceScreen | Main(content: Content)

  predicate IsAdmin(u: User)
  {
    u.role == Admin
  }

  /** The screen for a session, the settings and the active tab: the sign-in
      form when nobody is signed in, the maintenance notice for a non-admin
      while maintenance is on, and otherwise the tab's content, where the two
      admin tabs show nothing to a non-admin. */
  function Render(user: Option<User>, settings: AdminSettings, tab: string): (r: Screen)
    ensures r == AuthScreen <==> user.None?
    ensures r == MaintenanceScreen <==> user.Some? && !IsAdmin(user.value) && settings.isMaintenance
    ensures r == Main(AdminDashboardView) <==> user.Some? && IsAdmin(user.value) && tab == "admin-dashboard"
    ensures r == Main(AdminSettingsView) <==> user.Some? && IsAdmin(user.value) && tab == "admin-settings"
  {
    if user.None? then AuthScreen
    else if settings.isMaintenance && !IsAdmin(user.value) then MaintenanceScreen
    else Main(
      if tab == Dashboard then DashboardView
      else if tab == "tournaments" then TournamentsView
      else if tab == "leaderboard" then LeaderboardView
      else if tab == "wallet" then WalletView
      else if tab == "admin-dashboard" && IsAdmin(user.value) then AdminDashboardView
      else if tab == "admin-settings" && IsAdmin(user.value) then AdminSettingsView
      else if tab == "strategy" then StrategyView
      else NoContent)
  }

  // ---------------------------------------------------------------------
  // The component's state
  // ---------------------------------------------------------------------

  class App {
    var currentUser: Option<User>
    var activeTab: string
    var tournaments: seq<Tournament>
    var searchQuery: string
    var adminSettings: AdminSettings

    /** The first render, after the mount effect restored `saved` (if any)
        from the profile store. */
    constructor (saved: Option<User>)
      ensures currentUser == saved && activeTab == Dashboard
      ensures tournaments == Fixtures.InitialTournaments && searchQuery == ""
      ensures adminSettings == InitialSettings
    {
      currentUser := saved;
      activeTab := Dashboard;
      tournaments := Fixtures.InitialTournaments;
      searchQuery := "";
      adminSettings := InitialSettings;
    }

    function Screen(): Screen
      reads this
    {
      Render(currentUser, adminSettings, activeTab)
    }

    function FilteredTournaments(): seq<Tournament>
      reads this
    {
      Filtered(tournaments, searchQuery)
    }

    method HandleLogin(user: User)
      modifies this`currentUser, this`activeTab
      ensures currentUser == Some(user) && activeTab == Dashboard
    {
      currentUser := Some(user);
      activeTab := Dashboard;
    }

    method HandleLogout()
      modifies this`currentUser, this`activeTab
      ensures currentUser == None && activeTab == Dashboard
      ensures Screen() == AuthScreen
    {
      currentUser := None;
      activeTab := Dashboard;
    }

    method SetActiveTab(tab: string)
      modifies this`activeTab
      ensures activeTab == tab
    {
      activeTab := tab;
    }

    method SetSearchQuery(query: string)
      modifies this`searchQuery
      ensures searchQuery == query
    {
      searchQuery := query;
    }

    /** `handleJoinTournament`: with nobody signed in nothing happens;
        otherwise the fee is deducted unchecked and the catalog is bumped. */
    method HandleJoinTournament(tournamentId: string, fee: int)
      modifies this`currentUser, this`tournaments
      ensures old(currentUser).None? ==>
        currentUser == None && tournaments == old(tournaments)
      ensures old(currentUser).Some? ==>
        currentUser == Some(Debited(old(currentUser).value, fee)) &&
        tournaments == Registered(old(tournaments), tournamentId)
    {
      if currentUser.None? {
        return;
      }
      currentUser := Some(Debited(currentUser.value, fee));
      tournaments := Registered(tournaments, tournamentId);
    }
  }
}
