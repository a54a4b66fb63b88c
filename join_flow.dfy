/** The two halves of a tournament join put together: the card decides
    (components/TournamentCard.tsx) and the application applies the decision
    to the session and the catalog (App.tsx). The application's handler
    checks nothing itself, so every guarantee below comes from the card. */
module JoinFlow {
  import opened Types
  import opened Decimal
  import opened Text
  import Seqs
  import App
  import TournamentCard
  import Fixtures

  /** "Free" in any case reads as a zero fee. */
  lemma FreeFeeExamples()
    ensures TournamentCard.EntryFeeNum("Free") == Some(0)
    ensures TournamentCard.EntryFeeNum("FREE") == Some(0)
  {
    assert Lower("Free") == "free";
    assert Lower("FREE") == "free";
  }

  /** The digits of "₹1,000", in order. */
  lemma ThousandDigits()
    ensures Seqs.Filter(['\U{20B9}'] + "1,000", IsDigit) == "1000"
  {
    var t := ['\U{20B9}'] + "1,000";
    assert t == [t[0]] + t[1..];
    Seqs.FilterPrepend(t[0], t[1..], IsDigit);
    assert t[1..] == "1" + t[2..];
    Seqs.FilterPrepend('1', t[2..], IsDigit);
    assert t[2..] == "," + t[3..];
    Seqs.FilterPrepend(',', t[3..], IsDigit);
    Seqs.FilterKeepsAll(t[3..], IsDigit);
  }

  /** "1000" spells one thousand. */
  lemma ThousandValue()
    ensures AllDigits("1000") && DigitsValue("1000") == 1000
  {
    assert "1000"[..3] == "100" && "100"[..2] == "10" && "10"[..1] == "1" && "1"[..0] == "";
  }

  /** Separators between digits are dropped: "₹1,000" is a fee of 1000. */
  lemma ThousandFeeExample()
    ensures TournamentCard.EntryFeeNum(['\U{20B9}'] + "1,000") == Some(1000)
  {
    var t := ['\U{20B9}'] + "1,000";
    assert Lower(t)[0] != "free"[0];
    ThousandDigits();
    ThousandValue();
    TournamentCard.EntryFeeDefined(t);
  }

  /** A fee text with no digit that is not "free" is not a number; there is
      no fallback to zero. */
  lemma UndefinedFeeExamples()
    ensures TournamentCard.EntryFeeNum("TBD") == None
    ensures TournamentCard.EntryFeeNum("Free entry") == None
  {
    assert Lower("TBD")[0] != "free"[0];
    TournamentCard.EntryFeeDefined("TBD");
    assert |Lower("Free entry")| != |"free"|;
    TournamentCard.EntryFeeDefined("Free entry");
  }

  /** A confirmed join never drives a non-negative balance below zero: the
      card only asks for a fee the balance covers, and the application then
      deducts exactly that fee. */
  lemma ConfirmedJoinKeepsBalance(u: User, t: Tournament)
    requires u.balance >= 0
    ensures var req := TournamentCard.ConfirmOutcome(t, Some(u));
      req.Some? ==>
        App.Debited(u, req.value.fee).balance == u.balance - req.value.fee >= 0
  {
  }

  /** Joining an upcoming tournament with room that the user can afford
      deducts its fee and adds exactly one registrant; a refused confirmation
      asks nothing of the application, whose state therefore stays as it
      was. */
  lemma ConfirmedJoinEffect(u: User, ts: seq<Tournament>, k: nat)
    requires k < |ts| && TournamentCard.CanOpen(ts[k])
    ensures var req := TournamentCard.ConfirmOutcome(ts[k], Some(u));
      req.Some? ==>
        req.value.tournamentId == ts[k].id &&
        App.Debited(u, req.value.fee).balance == u.balance - req.value.fee &&
        App.Registered(ts, req.value.tournamentId)[k].registeredTeams == ts[k].registeredTeams + 1
    ensures TournamentCard.ConfirmOutcome(ts[k], Some(u)).None? <==>
      !TournamentCard.CanAfford(Some(u), TournamentCard.EntryFeeNum(ts[k].entryFee))
  {
    App.RegisteredWithinCapacity(ts, ts[k].id, k);
  }

  /** The seed catalog: the first tournament is under way and full, so its
      join button does nothing; the second and third are upcoming with room. */
  lemma SeedCatalogOpen()
    ensures !TournamentCard.CanOpen(Fixtures.InitialTournaments[0])
    ensures TournamentCard.CanOpen(Fixtures.InitialTournaments[1])
    ensures TournamentCard.CanOpen(Fixtures.InitialTournaments[2])
  {
  }

  /** The second seed tournament is free; the third costs 100 rupees. */
  lemma SeedCatalogFees()
    ensures TournamentCard.EntryFeeNum(Fixtures.InitialTournaments[1].entryFee) == Some(0)
    ensures TournamentCard.EntryFeeNum(Fixtures.InitialTournaments[2].entryFee) == Some(100)
  {
    FreeFeeExamples();
    HundredText();
    TournamentCard.EntryFeeOfRupees(100);
    assert Fixtures.InitialTournaments[2].entryFee == ['\U{20B9}'] + ToDecimal(100);
  }

  /** One hundred is written "100". */
  lemma HundredText()
    ensures ToDecimal(100) == "100"
  {
    assert ToDecimal(1) == "1";
    assert ToDecimal(10) == "10";
  }

  /** With a balance of 50, the 100-rupee tournament is refused and nothing is
      asked of the application. */
  lemma ScenarioTooPoor(u: User)
    requires u.balance == 50
    ensures TournamentCard.ConfirmOutcome(Fixtures.InitialTournaments[2], Some(u)) == None
  {
    SeedCatalogFees();
  }

  /** With a balance of 0, the free tournament is joined: the balance stays 0
      and its registrant count goes from 12 to 13. */
  lemma ScenarioFree(u: User)
    requires u.balance == 0
    ensures TournamentCard.ConfirmOutcome(Fixtures.InitialTournaments[1], Some(u)) == Some(TournamentCard.JoinRequest("2", 0))
    ensures App.Debited(u, 0).balance == 0
    ensures App.Registered(Fixtures.InitialTournaments, "2")[1].registeredTeams == 13
  {
    SeedCatalogFees();
    App.RegisteredWithinCapacity(Fixtures.InitialTournaments, "2", 1);
  }

  /** The dashboard: the confirm button of the card for the `k`-th tournament,
      wired to the application's join handler. */
  method ConfirmOnCard(app: App.App, card: TournamentCard.TournamentCard, k: nat)
    requires k < |app.tournaments|
    modifies app, card
    ensures var req := TournamentCard.ConfirmOutcome(old(app.tournaments[k]), old(app.currentUser));
      if req.None? then
        app.currentUser == old(app.currentUser) && app.tournaments == old(app.tournaments) &&
        card.error == TournamentCard.InsufficientBalance && card.showConfirm == old(card.showConfirm)
      else if old(app.currentUser).None? then
        app.currentUser == None && app.tournaments == old(app.tournaments) &&
        !card.showConfirm && card.error == old(card.error)
      else
        app.currentUser == Some(App.Debited(old(app.currentUser.value), req.value.fee)) &&
        app.tournaments == App.Registered(old(app.tournaments), req.value.tournamentId) &&
        !card.showConfirm && card.error == old(card.error)
    ensures old(app.currentUser).Some? && old(app.currentUser.value.balance) >= 0 ==>
      app.currentUser.Some? && app.currentUser.value.balance >= 0
    ensures app.activeTab == old(app.activeTab) && app.adminSettings == old(app.adminSettings)
    ensures app.searchQuery == old(app.searchQuery)
  {
    var req := card.ConfirmJoin(app.tournaments[k], app.currentUser);
    if req.Some? {
      app.HandleJoinTournament(req.value.tournamentId, req.value.fee);
    }
  }
}
