/** The admin control panel (components/AdminPanel.tsx): the new-tournament
    form, adding and deleting catalog entries, and the edits of the global
    settings. The catalog and the settings belong to the application; the
    panel changes them through the application's state. */
module Admin {
  import opened Types
  import opened Text
  import opened Decimal
  import Seqs
  import App
  import TournamentCard

  datatype SubTab = Overview | TournamentsTab | Payments | Users | Config

  /** The new-tournament form's state (`newT`). The form has inputs for the
      title, the map and the prize pool only. */
  datatype Draft = Draft(
    title: string,
    gameMap: MapType,
    entryFee: string,
    prizePool: string,
    status: TournamentStatus,
    maxTeams: int,
    registeredTeams: int)

  const DefaultDraft: Draft := Draft("", Bermuda, "0", "0", Upcoming, 48, 0)

  /** The fields no input of the form can change keep their defaults. */
  predicate FixedDefaults(d: Draft)
  {
    d.entryFee == "0" && d.status == Upcoming && d.maxTeams == 48 && d.registeredTeams == 0
  }

  /** The tournament built from the form; the id, the start date and the
      banner are random or clock-derived and come in as parameters. */
  function NewTournament(d: Draft, id: string, today: string, banner: string): (t: Tournament)
    ensures t.id == id && t.title == d.title && t.gameMap == d.gameMap && t.prizePool == d.prizePool
    ensures t.organizer == "Admin" && t.startDate == today && t.banner == banner
    ensures t.description == "Newly created tournament by Admin."
    ensures FixedDefaults(d) ==>
      t.entryFee == "0" && t.status == Upcoming && t.maxTeams == 48 && t.registeredTeams == 0
  {
    Tournament(id, d.title, "Newly created tournament by Admin.", d.status, d.prizePool,
      d.entryFee, d.maxTeams, d.registeredTeams, d.gameMap, today, "Admin", banner)
  }

  /** A tournament the panel creates is free to enter and open for joining. */
  lemma NewTournamentJoinable(d: Draft, id: string, today: string, banner: string)
    requires FixedDefaults(d)
    ensures TournamentCard.EntryFeeNum(NewTournament(d, id, today, banner).entryFee) == Some(0)
    ensures TournamentCard.CanOpen(NewTournament(d, id, today, banner))
  {
    var t := NewTournament(d, id, today, banner);
    assert Lower("0") == "0";
    assert Seqs.Filter("0", IsDigit) == "0";
    assert "0"[..0] == [];
  }

  /** The delete button: every tournament with the id goes. */
  function RemoveById(ts: seq<Tournament>, id: string): seq<Tournament>
  {
    Seqs.Filter(ts, (x: Tournament) => x.id != id)
  }

  /** After a delete no tournament carries the id; every other tournament is
      kept, as often as before and in the same order. */
  lemma RemoveByIdExactly(ts: seq<Tournament>, id: string, t: Tournament)
    ensures forall i :: 0 <= i < |RemoveById(ts, id)| ==> RemoveById(ts, id)[i].id != id
    ensures t.id != id ==> multiset(RemoveById(ts, id))[t] == multiset(ts)[t]
    ensures t in RemoveById(ts, id) <==> t in ts && t.id != id
    ensures Seqs.IsSubsequence(RemoveById(ts, id), ts)
  {
    Seqs.FilterCount(ts, (x: Tournament) => x.id != id, t);
    Seqs.FilterMembership(ts, (x: Tournament) => x.id != id, t);
    Seqs.FilterSubsequence(ts, (x: Tournament) => x.id != id);
  }

  /** The maintenance switch. */
  function ToggledMaintenance(s: AdminSettings): (r: AdminSettings)
    ensures r.isMaintenance == !s.isMaintenance
    ensures r.(isMaintenance := s.isMaintenance) == s
  {
    s.(isMaintenance := !s.isMaintenance)
  }

  /** Switching maintenance twice restores the settings. */
  lemma ToggleTwice(s: AdminSettings)
    ensures ToggledMaintenance(ToggledMaintenance(s)) == s
  {
  }

  /** For a signed-in non-admin, the switch flips whether the maintenance
      notice replaces the application; an admin never sees it. */
  lemma ToggleFlipsMaintenanceScreen(u: User, s: AdminSettings, tab: string)
    ensures !App.IsAdmin(u) ==>
      (App.Render(Some(u), ToggledMaintenance(s), tab) == App.MaintenanceScreen <==>
       App.Render(Some(u), s, tab) != App.MaintenanceScreen)
    ensures App.IsAdmin(u) ==>
      App.Render(Some(u), ToggledMaintenance(s), tab) != App.MaintenanceScreen
  {
  }

  class AdminPanel {
    var activeSubTab: SubTab
    var newT: Draft

    predicate Valid()
      reads this
    {
      FixedDefaults(newT)
    }

    constructor ()
      ensures Valid() && activeSubTab == Overview && newT == DefaultDraft
    {
      activeSubTab := Overview;
      newT := DefaultDraft;
    }

    method SetSubTab(tab: SubTab)
      modifies this`activeSubTab
      ensures activeSubTab == tab
    {
      activeSubTab := tab;
    }

    method SetDraftTitle(title: string)
      requires Valid()
      modifies this`newT
      ensures Valid() && newT == old(newT).(title := title)
    {
      newT := newT.(title := title);
    }

    method SetDraftMap(m: MapType)
      requires Valid()
      modifies this`newT
      ensures Valid() && newT == old(newT).(gameMap := m)
    {
      newT := newT.(gameMap := m);
    }

    method SetDraftPrizePool(prizePool: string)
      requires Valid()
      modifies this`newT
      ensures Valid() && newT == old(newT).(prizePool := prizePool)
    {
      newT := newT.(prizePool := prizePool);
    }

    /** `handleAddTournament`: nothing happens for an empty title; otherwise
        the new tournament goes in front of the catalog, the form is reset and
        the tournaments sub-tab is shown. */
    method HandleAddTournament(app: App.App, id: string, today: string, banner: string)
      requires Valid()
      modifies this, app`tournaments
      ensures Valid()
      ensures old(newT.title) == "" ==>
        app.tournaments == old(app.tournaments) && newT == old(newT) && activeSubTab == old(activeSubTab)
      ensures old(newT.title) != "" ==>
        app.tournaments == [NewTournament(old(newT), id, today, banner)] + old(app.tournaments) &&
        newT == DefaultDraft && activeSubTab == TournamentsTab
    {
      if newT.title == "" {
        return;
      }
      var t := NewTournament(newT, id, today, banner);
      app.tournaments := [t] + app.tournaments;
      newT := DefaultDraft;
      activeSubTab := TournamentsTab;
    }

    /** The delete button next to a catalog entry. */
    method DeleteTournament(app: App.App, id: string)
      modifies app`tournaments
      ensures app.tournaments == RemoveById(old(app.tournaments), id)
    {
      app.tournaments := RemoveById(app.tournaments, id);
    }

    method EditUpiId(app: App.App, upiId: string)
      modifies app`adminSettings
      ensures app.adminSettings == old(app.adminSettings).(upiId := upiId)
    {
      app.adminSettings := app.adminSettings.(upiId := upiId);
    }

    method EditQrCodeUrl(app: App.App, qrCodeUrl: string)
      modifies app`adminSettings
      ensures app.adminSettings == old(app.adminSettings).(qrCodeUrl := qrCodeUrl)
    {
      app.adminSettings := app.adminSettings.(qrCodeUrl := qrCodeUrl);
    }

    method EditAnnouncement(app: App.App, announcement: string)
      modifies app`adminSettings
      ensures app.adminSettings == old(app.adminSettings).(announcement := announcement)
    {
      app.adminSettings := app.adminSettings.(announcement := announcement);
    }

    method ToggleMaintenance(app: App.App)
      modifies app`adminSettings
      ensures app.adminSettings == ToggledMaintenance(old(app.adminSettings))
    {
      app.adminSettings := ToggledMaintenance(app.adminSettings);
    }
  }
}
