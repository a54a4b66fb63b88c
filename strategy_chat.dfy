/** The strategy chat (components/AIStrategyChat.tsx): a send guard, an
    append-only message list that alternates between the coach and the
    player, and the choice of map the advice is asked for. The advice service
    itself is an opaque function from a map name and a play style to text. */
module AIStrategyChat {
  import opened Types
  import opened Text
  import Seqs

  datatype Speaker = PlayerSpeaker | Bot

  datatype Message = Message(role: Speaker, text: string)

  const Welcome: Message := Message(Bot,
    "Welcome, Survivor! I am your Booyah AI coach. Need a strategy for Bermuda or maybe a tip for Kalahari? Ask me anything!")

  /** The play style every request asks for. */
  const PlayStyle: string := "aggressive"

  /** The message names the map, ignoring case. */
  predicate Mentions(msg: string, m: MapType)
  {
    Includes(Lower(msg), Lower(MapName(m)))
  }

  /** The map the advice is asked for: the first map, in the enumeration's
      order, that the message names, and Bermuda when it names none. */
  function DetectMap(msg: string): (m: MapType)
    ensures (forall j :: 0 <= j < |AllMaps| ==> !Mentions(msg, AllMaps[j])) ==> m == Bermuda
    ensures (exists j :: 0 <= j < |AllMaps| && Mentions(msg, AllMaps[j])) ==>
      Mentions(msg, m) &&
      exists k :: 0 <= k < |AllMaps| && AllMaps[k] == m && forall j :: 0 <= j < k ==> !Mentions(msg, AllMaps[j])
  {
    match Seqs.FirstWhere(AllMaps, (x: MapType) => Mentions(msg, x))
    case Some(i) => AllMaps[i]
    case None => Bermuda
  }

  /** The enumeration lists each map once. */
  lemma AllMapsDistinct()
    ensures Seqs.Distinct(AllMaps)
  {
  }

  /** Order in the message does not matter: of two named maps, the one
      declared later in the enumeration is never chosen. */
  lemma EnumOrderWins(msg: string, i: nat, j: nat)
    requires i < j < |AllMaps|
    requires Mentions(msg, AllMaps[i]) && Mentions(msg, AllMaps[j])
    ensures DetectMap(msg) != AllMaps[j]
  {
    AllMapsDistinct();
    Seqs.FirstWhereNotLater(AllMaps, (x: MapType) => Mentions(msg, x), i, j);
  }

  /** Every message the chat shows: the welcome first, then player and coach
      in turn; a request is in flight exactly when the player spoke last. */
  predicate Alternating(messages: seq<Message>, loading: bool)
  {
    |messages| >= 1 && messages[0] == Welcome &&
    (forall i :: 0 <= i < |messages| ==> messages[i].role == if i % 2 == 1 then PlayerSpeaker else Bot) &&
    (loading <==> |messages| % 2 == 0)
  }

  /** A player message may follow when no request is in flight, and a coach
      message when one is; either keeps the turns alternating and flips
      whether a request is in flight. */
  lemma AppendKeepsAlternating(messages: seq<Message>, loading: bool, m: Message)
    requires Alternating(messages, loading)
    requires m.role == if loading then Bot else PlayerSpeaker
    ensures Alternating(messages + [m], !loading)
  {
    var all := messages + [m];
    forall i | 0 <= i < |all|
      ensures all[i].role == if i % 2 == 1 then PlayerSpeaker else Bot
    {
      if i < |messages| {
        assert all[i] == messages[i];
      }
    }
  }

  class StrategyChat {
    var messages: seq<Message>
    var input: string
    var loading: bool

    predicate Valid()
      reads this
    {
      Alternating(messages, loading)
    }

    constructor ()
      ensures Valid() && messages == [Welcome] && input == "" && !loading
    {
      messages := [Welcome];
      input := "";
      loading := false;
    }

    method SetInput(s: string)
      modifies this`input
      ensures input == s
    {
      input := s;
    }

    /** The part of `handleSend` before the request is awaited. A blank input
        or a request in flight makes it a no-op; otherwise the input becomes
        the player's message at the end of the list, the field is cleared and
        loading starts. The result is the map the advice is asked for. */
    method Send() returns (request: Option<MapType>)
      requires Valid()
      modifies this`messages, this`input, this`loading
      ensures Valid()
      ensures IsBlank(old(input)) || old(loading) ==>
        request == None && messages == old(messages) && input == old(input) && loading == old(loading)
      ensures !IsBlank(old(input)) && !old(loading) ==>
        request == Some(DetectMap(old(input))) &&
        messages == old(messages) + [Message(PlayerSpeaker, old(input))] &&
        input == "" && loading
    {
      if IsBlank(input) || loading {
        return None;
      }
      var userMsg := input;
      AppendKeepsAlternating(messages, loading, Message(PlayerSpeaker, userMsg));
      input := "";
      messages := messages + [Message(PlayerSpeaker, userMsg)];
      loading := true;
      request := Some(DetectMap(userMsg));
    }

    /** The part of `handleSend` after the advice arrives: one coach message
        at the end, and loading stops. */
    method Reply(response: string)
      requires Valid() && loading
      modifies this`messages, this`loading
      ensures Valid()
      ensures messages == old(messages) + [Message(Bot, response)] && !loading
    {
      AppendKeepsAlternating(messages, loading, Message(Bot, response));
      messages := messages + [Message(Bot, response)];
      loading := false;
    }

    /** One whole `handleSend` with the advice service `ask`: an accepted
        send grows the list by exactly two messages, the player's and the
        coach's answer for the detected map; a refused one changes nothing. */
    method SendAndWait(ask: (string, string) -> string)
      requires Valid()
      modifies this`messages, this`input, this`loading
      ensures Valid()
      ensures IsBlank(old(input)) || old(loading) ==>
        messages == old(messages) && input == old(input) && loading == old(loading)
      ensures !IsBlank(old(input)) && !old(loading) ==>
        messages == old(messages) + [Message(PlayerSpeaker, old(input)),
                                     Message(Bot, ask(MapName(DetectMap(old(input))), PlayStyle))] &&
        input == "" && !loading
    {
      var request := Send();
      if request.Some? {
        Reply(ask(MapName(request.value), PlayStyle));
      }
    }
  }
}
