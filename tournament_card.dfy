/** One tournament's card (components/TournamentCard.tsx): the entry fee read
    from its display text, the affordability and capacity tests, and the
    confirm dialog with its error line. */
module TournamentCard {
  import opened Types
  import opened Text
  import opened Decimal
  import Seqs

  const InsufficientBalance: string := "Insufficient balance! Please top up your wallet."

  /** `entryFeeNum`: zero for the word "free" in any case; otherwise
      `parseInt` of the fee text with every non-digit removed, which is not a
      number (`None`) when the text holds no digit at all. */
  function EntryFeeNum(fee: string): Option<nat>
  {
    if Lower(fee) == "free" then Some(0) else ParseDigits(Seqs.Filter(fee, IsDigit))
  }

  predicate HasDigit(s: string)
  {
    exists i :: 0 <= i < |s| && IsDigit(s[i])
  }

  /** A fee text other than "free" is a number exactly when it holds a digit,
      and then it is the value of its digits read in order. */
  lemma EntryFeeDefined(fee: string)
    requires Lower(fee) != "free"
    ensures EntryFeeNum(fee).Some? <==> HasDigit(fee)
    ensures EntryFeeNum(fee).Some? ==> EntryFeeNum(fee).value == DigitsValue(Seqs.Filter(fee, IsDigit))
  {
    var ds := Seqs.Filter(fee, IsDigit);
    if HasDigit(fee) {
      var i :| 0 <= i < |fee| && IsDigit(fee[i]);
      Seqs.FilterMembership(fee, IsDigit, fee[i]);
    } else if ds != [] {
      Seqs.FilterMembership(fee, IsDigit, ds[0]);
    }
  }

  /** Any four-letter spelling of "free", in any mix of cases, is a zero fee. */
  lemma EntryFeeFreeAnyCase(fee: string)
    requires |fee| == 4 && fee[0] in "fF" && fee[1] in "rR" && fee[2] in "eE" && fee[3] in "eE"
    ensures EntryFeeNum(fee) == Some(0)
  {
    assert Lower(fee) == "free";
  }

  /** A fee displayed as the rupee sign followed by `n` reads back as `n`. */
  lemma EntryFeeOfRupees(n: nat)
    ensures EntryFeeNum(['\U{20B9}'] + ToDecimal(n)) == Some(n)
  {
    var fee := ['\U{20B9}'] + ToDecimal(n);
    ToDecimalRoundTrip(n);
    assert Lower(fee)[0] != "free"[0];
    assert !IsDigit('\U{20B9}');
    Seqs.FilterPrepend('\U{20B9}', ToDecimal(n), IsDigit);
    Seqs.FilterKeepsAll(ToDecimal(n), IsDigit);
    assert Seqs.Filter(fee, IsDigit) == ToDecimal(n);
  }

  /** A zero-padded fee reads the same as the unpadded one: "₹0100" is 100. */
  lemma EntryFeeZeroPadded(n: nat)
    ensures EntryFeeNum(['\U{20B9}', '0'] + ToDecimal(n)) == Some(n)
  {
    var ds := ToDecimal(n);
    var fee := ['\U{20B9}', '0'] + ds;
    ToDecimalRoundTrip(n);
    assert Lower(fee)[0] != "free"[0];
    assert fee == ['\U{20B9}'] + ("0" + ds);
    Seqs.FilterPrepend('\U{20B9}', "0" + ds, IsDigit);
    Seqs.FilterKeepsAll("0" + ds, IsDigit);
    assert Seqs.Filter(fee, IsDigit) == "0" + ds;
    LeadingZero(ds);
  }

  /** `user?.balance || 0`. */
  function BalanceOrZero(user: Option<User>): int
  {
    if user.Some? then user.value.balance else 0
  }

  /** `canAfford`: a comparison with not-a-number is false, so a fee that
      did not parse is never affordable. */
  predicate CanAfford(user: Option<User>, fee: Option<nat>)
  {
    fee.Some? && BalanceOrZero(user) >= fee.value
  }

  /** `isFull`. */
  predicate IsFull(t: Tournament)
  {
    t.registeredTeams >= t.maxTeams
  }

  /** The join button is enabled and its handler proceeds. */
  predicate CanOpen(t: Tournament)
  {
    t.status == Upcoming && !IsFull(t)
  }

  /** The call `onJoinSuccess(tournamentId, fee)` the card makes. */
  datatype JoinRequest = JoinRequest(tournamentId: string, fee: nat)

  /** What confirming in the dialog asks of the application: a join for the
      parsed fee when the user can afford it, and nothing otherwise. */
  function ConfirmOutcome(t: Tournament, user: Option<User>): (r: Option<JoinRequest>)
    ensures r.Some? <==> CanAfford(user, EntryFeeNum(t.entryFee))
    ensures r.Some? ==> r.value.tournamentId == t.id
    ensures r.Some? ==> Some(r.value.fee) == EntryFeeNum(t.entryFee) && r.value.fee <= BalanceOrZero(user)
  {
    var fee := EntryFeeNum(t.entryFee);
    if CanAfford(user, fee) then Some(JoinRequest(t.id, fee.value)) else None
  }

  class TournamentCard {
    var showConfirm: bool
    var error: string

    constructor ()
      ensures !showConfirm && error == ""
    {
      showConfirm := false;
      error := "";
    }

    /** `handleJoinClick`: opens the dialog and clears the error only for an
        upcoming tournament with room; otherwise nothing changes. */
    method HandleJoinClick(t: Tournament)
      modifies this
      ensures CanOpen(t) ==> showConfirm && error == ""
      ensures !CanOpen(t) ==> showConfirm == old(showConfirm) && error == old(error)
    {
      if t.status != Upcoming {
        return;
      }
      if IsFull(t) {
        return;
      }
      showConfirm := true;
      error := "";
    }

    /** The dialog's close and cancel buttons. */
    method CloseDialog()
      modifies this`showConfirm
      ensures !showConfirm
    {
      showConfirm := false;
    }

    /** `confirmJoin`: when the user cannot afford the fee, the error is set,
        the dialog stays as it was and no join is requested; otherwise exactly
        one join is requested for this tournament's id and fee and the dialog
        closes. */
    method ConfirmJoin(t: Tournament, user: Option<User>) returns (join: Option<JoinRequest>)
      modifies this
      ensures join == ConfirmOutcome(t, user)
      ensures join.None? ==> error == InsufficientBalance && showConfirm == old(showConfirm)
      ensures join.Some? ==> !showConfirm && error == old(error)
    {
      var fee := EntryFeeNum(t.entryFee);
      if !CanAfford(user, fee) {
        error := InsufficientBalance;
        return None;
      }
      join := Some(JoinRequest(t.id, fee.value));
      showConfirm := false;
    }
  }
}
