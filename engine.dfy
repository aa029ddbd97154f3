/** The GameEngine class: one game's state, updated in place by its methods, and the
    events emitted so far. Every method performs the source's updates in the source's
    order and is proved to end in the state, event list and error that the matching
    function of Steps describes; the public methods also keep the invariant
    `Zones.Valid` and create or destroy no player's cards. */
module Engine {
  import opened GameTypes
  import opened Zones
  import Steps
  import CardRules
  import CardData
  import Scoring
  import Images
  import Invariants
  import Conservation

  // ---------------------------------------------------------------- loops outside the class

  /** `forEach(id => { i = hand.findIndex(...); if (i !== -1) discard.push(hand.splice(i, 1)[0]) })`. */
  method DiscardCardsById(hand: seq<Card>, discard: seq<Card>, ids: seq<string>)
    returns (newHand: seq<Card>, newDiscard: seq<Card>)
    ensures Steps.Piles(newHand, newDiscard) == Steps.DiscardByIds(hand, discard, ids)
    ensures multiset(newHand) + multiset(newDiscard) == multiset(hand) + multiset(discard)
  {
    newHand, newDiscard := hand, discard;
    var k := 0;
    while k < |ids|
      invariant 0 <= k <= |ids|
      invariant Steps.DiscardByIds(newHand, newDiscard, ids[k..]) == Steps.DiscardByIds(hand, discard, ids)
    {
      assert ids[k..][0] == ids[k] && ids[k..][1..] == ids[k + 1..];
      var found := FirstIndex(newHand, CardId, ids[k]);
      if found.Some? {
        newDiscard := newDiscard + [newHand[found.value]];
        newHand := RemoveAt(newHand, found.value);
      }
      k := k + 1;
    }
    assert ids[k..] == [];
  }

  /** One more entry of the in-play table contributes its cards to its own player only. */
  lemma SlotCardsSnoc(slots: seq<Slot>, k: nat, q: string)
    requires k < |slots| && Distinct(SlotIds(slots))
    ensures SlotCards(slots[..k + 1], q) ==
      SlotCards(slots[..k], q) + (if slots[k].playerId == q then slots[k].cards else [])
  {
    assert slots[..k + 1] == slots[..k] + [slots[k]];
    FirstIndexAppend(slots[..k], slots[k], SlotId, q);
    var r := FirstIndex(slots[..k], SlotId, q);
    if r.Some? {
      assert SlotIds(slots)[r.value] == q;
      assert slots[k].playerId != q;
    }
  }

  lemma ConcatAssoc<T>(a: seq<T>, b: seq<T>, c: seq<T>)
    ensures a + (b + c) == (a + b) + c
  {
  }

  /** Walking one more entry of the in-play table credits its cards to the one player with that id. */
  lemma DiscardEntryStep(ps0: seq<Player>, slots: seq<Slot>, k: nat)
    requires k < |slots| && Distinct(SlotIds(slots)) && Distinct(Ids(ps0))
    ensures var ps := Steps.DiscardAllInPlay(ps0, slots[..k]);
      var found := FirstIndex(ps, PlayerId, slots[k].playerId);
      Steps.DiscardAllInPlay(ps0, slots[..k + 1]) ==
        if found.None? then ps
        else ps[found.value := ps[found.value].(discardPile := ps[found.value].discardPile + slots[k].cards)]
  {
    var ps := Steps.DiscardAllInPlay(ps0, slots[..k]);
    var next := Steps.DiscardAllInPlay(ps0, slots[..k + 1]);
    var q := slots[k].playerId;
    var cards := slots[k].cards;
    var found := FirstIndex(ps, PlayerId, q);
    var target := if found.None? then ps
      else ps[found.value := ps[found.value].(discardPile := ps[found.value].discardPile + cards)];
    assert |target| == |next| == |ps0|;
    forall m | 0 <= m < |ps0|
      ensures next[m] == target[m]
    {
      var p := ps0[m];
      var before := SlotCards(slots[..k], p.id);
      var extra := if q == p.id then cards else [];
      SlotCardsSnoc(slots, k, p.id);
      assert ps[m] == p.(discardPile := p.discardPile + before);
      ConcatAssoc(p.discardPile, before, extra);
      assert next[m] == ps[m].(discardPile := ps[m].discardPile + extra);
      if found.Some? && m == found.value {
        assert q == p.id;
      } else {
        if found.Some? {
          assert Ids(ps0)[m] != Ids(ps0)[found.value];
        } else {
          assert PlayerId(ps[m]) != q;
        }
        assert extra == [];
        assert ps[m].discardPile + extra == ps[m].discardPile;
        assert target[m] == ps[m];
      }
    }
  }

  /** `Object.entries(cardsInPlay).forEach(([id, cards]) => getPlayer(id)?.discardPile.push(...cards))`. */
  method DiscardEntries(players: seq<Player>, slots: seq<Slot>) returns (ps: seq<Player>)
    requires Distinct(SlotIds(slots)) && Distinct(Ids(players))
    ensures ps == Steps.DiscardAllInPlay(players, slots)
  {
    ps := players;
    forall m | 0 <= m < |players|
      ensures players[m] == Steps.DiscardInPlay(players[m], slots[..0])
    {
      assert players[m].discardPile + [] == players[m].discardPile;
    }
    var k := 0;
    while k < |slots|
      invariant 0 <= k <= |slots|
      invariant ps == Steps.DiscardAllInPlay(players, slots[..k])
    {
      DiscardEntryStep(players, slots, k);
      var found := FirstIndex(ps, PlayerId, slots[k].playerId);
      if found.Some? {
        var j := found.value;
        ps := ps[j := ps[j].(discardPile := ps[j].discardPile + slots[k].cards)];
      }
      k := k + 1;
    }
    assert slots[..k] == slots;
  }

  /** A swap keeps distinct ids distinct. */
  lemma SwapKeepsDistinct(xs: seq<string>, i: nat, j: nat)
    requires i < |xs| && j < |xs| && Distinct(xs)
    ensures Distinct(CardData.Swap(xs, i, j))
  {
    var r := CardData.Swap(xs, i, j);
    forall a, b | 0 <= a < b < |r|
      ensures r[a] != r[b]
    {
      var pa := if a == i then j else if a == j then i else a;
      var pb := if b == i then j else if b == j then i else b;
      assert r[a] == xs[pa] && r[b] == xs[pb];
      if pa < pb {} else {}
    }
  }

  lemma ShuffleFromStep<T>(s: seq<T>, i: nat, random: nat -> nat)
    requires 0 < i < |s|
    ensures CardData.ShuffleFrom(s, i, random) == CardData.ShuffleFrom(CardData.Swap(s, i, CardData.Pick(random, i)), i - 1, random)
  {
  }

  lemma {:induction false} ShuffleFromKeepsDistinct(xs: seq<string>, i: nat, random: nat -> nat)
    requires i < |xs| && Distinct(xs)
    ensures Distinct(CardData.ShuffleFrom(xs, i, random))
    decreases i
  {
    if i > 0 {
      var t := CardData.Swap(xs, i, CardData.Pick(random, i));
      SwapKeepsDistinct(xs, i, CardData.Pick(random, i));
      ShuffleFromKeepsDistinct(t, i - 1, random);
      ShuffleFromStep(xs, i, random);
    }
  }

  /** Taking the ids commutes with a swap and so with a shuffle. */
  lemma SwapDeckIds(s: seq<Environment>, i: nat, j: nat)
    requires i < |s| && j < |s|
    ensures DeckIds(CardData.Swap(s, i, j)) == CardData.Swap(DeckIds(s), i, j)
  {
  }

  lemma {:induction false} ShuffleFromDeckIds(s: seq<Environment>, i: nat, random: nat -> nat)
    requires i < |s|
    ensures DeckIds(CardData.ShuffleFrom(s, i, random)) == CardData.ShuffleFrom(DeckIds(s), i, random)
    decreases i
  {
    if i > 0 {
      var j := CardData.Pick(random, i);
      SwapDeckIds(s, i, j);
      ShuffleFromDeckIds(CardData.Swap(s, i, j), i - 1, random);
      ShuffleFromStep(s, i, random);
      ShuffleFromStep(DeckIds(s), i, random);
    }
  }

  lemma ShuffledKeepsIdsDistinct(s: seq<Environment>, random: nat -> nat)
    requires Distinct(DeckIds(s))
    ensures Distinct(DeckIds(CardData.Shuffled(s, random)))
  {
    if s != [] {
      ShuffleFromDeckIds(s, |s| - 1, random);
      ShuffleFromKeepsDistinct(DeckIds(s), |s| - 1, random);
    }
  }

  /** The shuffled environment deck of a new game holds 19 environments with distinct ids. */
  lemma ShuffledDeckIdsDistinct(newEnvId: nat -> string, random: nat -> nat)
    requires CardData.Injective(newEnvId)
    ensures |CardData.Shuffled(CardData.CreateEnvironmentDeck(newEnvId), random)| == 19
    ensures Distinct(DeckIds(CardData.Shuffled(CardData.CreateEnvironmentDeck(newEnvId), random)))
  {
    var deck := CardData.CreateEnvironmentDeck(newEnvId);
    assert Distinct(DeckIds(deck));
    CardData.ShuffledIsPermutation(deck, random);
    ShuffledKeepsIdsDistinct(deck, random);
  }

  /** The constructor's state from the two shuffled decks: each of the first three environments
      pops an item off the end of the item deck, and three more items are sliced off its end. */
  method NewGameState(gameId: Option<string>, freshGameId: string, maxPlayers: int, isQuickGame: bool,
                      environmentDeck: seq<Environment>, items: seq<Item>) returns (st: GameState)
    requires |environmentDeck| >= 3 && |items| >= 6
    ensures st == Steps.InitialState(gameId, freshGameId, maxPlayers, isQuickGame, environmentDeck, items)
  {
    var itemDeck := items;
    var first := itemDeck[|itemDeck| - 1];
    itemDeck := itemDeck[..|itemDeck| - 1];
    var second := itemDeck[|itemDeck| - 1];
    itemDeck := itemDeck[..|itemDeck| - 1];
    var third := itemDeck[|itemDeck| - 1];
    itemDeck := itemDeck[..|itemDeck| - 1];
    var states := [
      EnvironmentState(environmentDeck[0], [first], [], map[]),
      EnvironmentState(environmentDeck[1], [second], [], map[]),
      EnvironmentState(environmentDeck[2], [third], [], map[])];
    st := GameState(
      if Given(gameId) then gameId.value else freshGameId,
      [], 0, Setup, map[], None, None, states, 0, maxPlayers,
      if isQuickGame then 2 else 3,
      environmentDeck[3..], itemDeck[..|itemDeck| - 3]);
    // Each initial environment gets an empty prepared-cards table.
    st := st.(preparedCards := Steps.EmptyTables(StateIds(states)));
    assert items[..|items| - 6] == itemDeck[..|itemDeck| - 3];
  }

  // ---------------------------------------------------------------- the engine

  class GameEngine {
    var gameState: GameState
    /** Every event passed to the listeners so far, oldest first. */
    var events: seq<Event>

    ghost predicate Valid()
      reads this
    {
      Zones.Valid(gameState)
    }

    /** The engine moved from (s0, e0) along `r`: its state is r's and r's events were appended. */
    ghost predicate Performed(s0: GameState, e0: seq<Event>, r: Steps.Step)
      reads this
    {
      gameState == r.state && events == e0 + r.emitted
    }

    /** `newEnvId`, `newItemId` stand for the uuids the decks are built with, `randomEnv` and
        `randomItem` for the two shuffles' calls to Math.random, and `freshGameId` for the
        uuid used when no game id is given. */
    constructor(gameId: Option<string>, freshGameId: string, maxPlayers: int, isQuickGame: bool,
                newEnvId: nat -> string, newItemId: nat -> string,
                randomEnv: nat -> nat, randomItem: nat -> nat)
      requires CardData.Injective(newEnvId)
      ensures gameState == Steps.InitialState(gameId, freshGameId, maxPlayers, isQuickGame,
        CardData.Shuffled(CardData.CreateEnvironmentDeck(newEnvId), randomEnv),
        CardData.Shuffled(CardData.CreateItemDeck(newItemId), randomItem))
      ensures events == []
      ensures Valid()
      ensures |gameState.environmentStates| == 3 && |gameState.environmentDeck| == 16
      ensures |gameState.itemDeck| == 24
    {
      var environmentDeck := CardData.ShuffleArray(CardData.CreateEnvironmentDeck(newEnvId), randomEnv);
      var itemDeck := CardData.ShuffleArray(CardData.CreateItemDeck(newItemId), randomItem);
      ShuffledDeckIdsDistinct(newEnvId, randomEnv);
      var st := NewGameState(gameId, freshGameId, maxPlayers, isQuickGame, environmentDeck, itemDeck);
      gameState := st;
      events := [];
      Invariants.InitialStateValid(gameId, freshGameId, maxPlayers, isQuickGame, environmentDeck, itemDeck);
    }

    // -------------------------------------------------------------- queries

    /** `getPlayer`. */
    function GetPlayer(pid: string): Option<Player>
      reads this
    {
      Steps.GetPlayer(gameState, pid)
    }

    /** `getCurrentPlayer`. */
    function GetCurrentPlayer(): Option<Player>
      reads this
    {
      Steps.CurrentPlayer(gameState)
    }

    /** True exactly in a playing phase when pid is the player at the current index. */
    method CanPlayerAct(pid: string) returns (ok: bool)
      ensures ok <==> (gameState.phase == Handbuilding || gameState.phase == Skirmish)
                      && 0 <= gameState.currentPlayerIndex < |gameState.players|
                      && gameState.players[gameState.currentPlayerIndex].id == pid
    {
      var current := GetCurrentPlayer();
      ok := (gameState.phase == Handbuilding || gameState.phase == Skirmish)
            && current.Some? && current.value.id == pid;
    }

    method IsGameFull() returns (full: bool)
      ensures full <==> |gameState.players| >= gameState.maxPlayers
    {
      full := |gameState.players| >= gameState.maxPlayers;
    }

    // -------------------------------------------------------------- players joining and leaving

    /** `newCardId` stands for the uuids of the new player's cards and `random` for the
        calls to Math.random made while shuffling them. */
    method AddPlayer(pid: string, name: string, newCardId: nat -> string, random: nat -> nat)
      returns (err: Option<GameError>)
      requires Valid()
      modifies this
      ensures Performed(old(gameState), old(events), Steps.AddPlayer(old(gameState), pid, name, Steps.JoiningDeck(newCardId, random)))
      ensures err == Steps.AddPlayer(old(gameState), pid, name, Steps.JoiningDeck(newCardId, random)).error
      ensures Valid() && Conserves(old(gameState), gameState)
    {
      ghost var s0 := gameState;
      if |gameState.players| >= gameState.maxPlayers {
        return Some(GameError(GameFull, "Game is already full"));
      }
      if GetPlayer(pid).Some? {
        return Some(GameError(PlayerNotInGame, "Player is already in the game"));
      }
      var color := CardData.JoinColor(|gameState.players|);
      var deck := CardData.ShuffleArray(CardData.CreatePlayerDeck(newCardId), random);
      var newPlayer := Player(pid, name, color, [], deck, [], false, true, 0, false);
      gameState := gameState.(players := gameState.players + [newPlayer]);
      var prep := gameState.preparedCards;
      gameState := gameState.(preparedCards := Steps.SeatPrepared(prep, pid));
      events := events + [PlayerJoined(newPlayer)];
      CheckGameStart();
      err := None;
      Invariants.AddPlayerValid(s0, pid, name, deck);
      Conservation.AddPlayerConserves(s0, pid, name, deck);
    }

    method RemovePlayer(pid: string) returns (err: Option<GameError>)
      requires Valid()
      modifies this
      ensures Performed(old(gameState), old(events), Steps.RemovePlayer(old(gameState), pid))
      ensures err == Steps.RemovePlayer(old(gameState), pid).error
      ensures Valid() && Conserves(old(gameState), gameState)
    {
      ghost var s0 := gameState;
      var found := FirstIndex(gameState.players, PlayerId, pid);
      if found.None? {
        return Some(GameError(PlayerNotInGame, "Player is not in this game"));
      }
      var playerIndex := found.value;
      var removedPlayer := gameState.players[playerIndex];
      gameState := gameState.(players := RemoveAt(gameState.players, playerIndex));
      if gameState.currentPlayerIndex >= playerIndex && gameState.currentPlayerIndex > 0 {
        gameState := gameState.(currentPlayerIndex := gameState.currentPlayerIndex - 1);
      }
      var prep := gameState.preparedCards;
      gameState := gameState.(preparedCards := Steps.UnseatPrepared(prep, pid));
      events := events + [PlayerLeft(removedPlayer)];
      ghost var s1 := gameState;
      assert s1 == s0.(players := RemoveAt(s0.players, playerIndex),
        currentPlayerIndex := if s0.currentPlayerIndex >= playerIndex && s0.currentPlayerIndex > 0
                              then s0.currentPlayerIndex - 1 else s0.currentPlayerIndex,
        preparedCards := Steps.UnseatPrepared(s0.preparedCards, pid));
      if |gameState.players| < 2 && gameState.phase != Setup {
        EndGame(None);
        ConcatAssoc(old(events), [PlayerLeft(removedPlayer)], Steps.EndGame(s1, None).emitted);
      }
      err := None;
      Invariants.RemovePlayerValid(s0, pid);
      Conservation.RemovePlayerConserves(s0, pid);
    }

    method SetPlayerReady(pid: string, isReady: bool) returns (err: Option<GameError>)
      requires Valid()
      modifies this
      ensures Performed(old(gameState), old(events), Steps.SetPlayerReady(old(gameState), pid, isReady))
      ensures err == Steps.SetPlayerReady(old(gameState), pid, isReady).error
      ensures Valid() && Conserves(old(gameState), gameState)
    {
      ghost var s0 := gameState;
      var found := FirstIndex(gameState.players, PlayerId, pid);
      if found.None? {
        return Some(GameError(PlayerNotInGame, "Player is not in this game"));
      }
      var i := found.value;
      gameState := gameState.(players := gameState.players[i := gameState.players[i].(isReady := isReady)]);
      events := events + [GameUpdated];
      CheckGameStart();
      err := None;
      Invariants.SetPlayerReadyValid(s0, pid, isReady);
      Conservation.SetPlayerReadyConserves(s0, pid, isReady);
    }

    method SetPlayerConnection(pid: string, isConnected: bool)
      requires Valid()
      modifies this
      ensures Performed(old(gameState), old(events), Steps.SetPlayerConnection(old(gameState), pid, isConnected))
      ensures Valid() && Conserves(old(gameState), gameState)
    {
      ghost var s0 := gameState;
      var found := FirstIndex(gameState.players, PlayerId, pid);
      if found.Some? {
        var i := found.value;
        gameState := gameState.(players := gameState.players[i := gameState.players[i].(isConnected := isConnected)]);
        events := events + [GameUpdated];
        Invariants.SetPlayerConnectionValid(s0, pid, isConnected);
        Conservation.SetPlayerConnectionConserves(s0, pid, isConnected);
      }
    }

    // -------------------------------------------------------------- game flow

    method CheckGameStart()
      modifies this
      ensures Performed(old(gameState), old(events), Steps.CheckGameStart(old(gameState)))
    {
      var allReady := forall i :: 0 <= i < |gameState.players| ==> gameState.players[i].isReady;
      if gameState.phase == Setup && |gameState.players| >= 2 && allReady {
        StartHandbuilding();
      }
    }

    method StartHandbuilding()
      modifies this
      ensures Performed(old(gameState), old(events), Steps.StartHandbuilding(old(gameState)))
    {
      ghost var ps0 := gameState.players;
      gameState := gameState.(phase := Handbuilding, turn := 1, currentPlayerIndex := 0);
      var i := 0;
      while i < |gameState.players|
        invariant 0 <= i <= |gameState.players| == |ps0|
        invariant forall k :: 0 <= k < i ==> gameState.players[k] == Steps.DealOpening(ps0[k])
        invariant forall k :: i <= k < |ps0| ==> gameState.players[k] == ps0[k]
        invariant events == old(events)
        invariant gameState == old(gameState).(phase := Handbuilding, turn := 1, currentPlayerIndex := 0,
                                                players := gameState.players)
      {
        var player := gameState.players[i];
        var d := CardRules.DrawCards(player.deck, 3);
        player := player.(hand := d.drawnCards, deck := d.remainingDeck, hasPassed := false);
        gameState := gameState.(players := gameState.players[i := player]);
        i := i + 1;
      }
      assert gameState.players == Steps.StartHandbuilding(old(gameState)).state.players;
      events := events + [PhaseChanged(Handbuilding)];
    }

    method NextTurn()
      requires |gameState.players| > 0
      modifies this
      ensures Performed(old(gameState), old(events), Steps.NextTurn(old(gameState)))
    {
      gameState := gameState.(currentPlayerIndex :=
                                Steps.JsRemainder(gameState.currentPlayerIndex + 1, |gameState.players|),
                              turn := gameState.turn + 1);
      events := events + [GameUpdated];
    }

    method EndGame(winnerId: Option<string>)
      modifies this
      ensures Performed(old(gameState), old(events), Steps.EndGame(old(gameState), winnerId))
    {
      gameState := gameState.(phase := Finished);
      var winner := if Given(winnerId) then GetPlayer(winnerId.value) else None;
      events := events + [GameEnded(winner, Scoring.Standings(gameState.players))];
    }

    // -------------------------------------------------------------- actions

    /** Dispatch on the action's type, after checking that its player is in the game. */
    method ProcessAction(action: Action) returns (err: Option<GameError>)
      requires Valid() && Steps.ProcessDefined(gameState, action)
      modifies this
      ensures Performed(old(gameState), old(events), Steps.ProcessAction(old(gameState), action))
      ensures err == Steps.ProcessAction(old(gameState), action).error
      ensures Valid() && Conserves(old(gameState), gameState)
    {
      ghost var s0 := gameState;
      var pid := action.playerId;
      if GetPlayer(pid).None? {
        return Some(GameError(PlayerNotInGame, "Player is not in this game"));
      }
      match action.actionType {
        case ReadyUp => err := SetPlayerReady(pid, true);
        case PrepareCard => err := PrepareCardAction(pid, action.payload);
        case InitiateSkirmish => err := InitiateSkirmishAction(pid, action.payload);
        case PlayCard => err := PlayCardAction(pid, action.payload);
        case TakeItem => err := TakeItemAction(pid, action.payload);
        case Pass => err := PassAction(pid);
        case DiscardToHandLimit => err := DiscardToHandLimitAction(pid, action.payload);
        case Unknown(_) => err := Some(GameError(InvalidMove, "Invalid action type"));
      }
      Invariants.ProcessActionValid(s0, action);
      Conservation.ProcessActionConserves(s0, action);
    }

    method PrepareCardAction(pid: string, payload: Payload) returns (err: Option<GameError>)
      modifies this
      ensures Performed(old(gameState), old(events), Steps.PrepareCardAction(old(gameState), pid, payload))
      ensures err == Steps.PrepareCardAction(old(gameState), pid, payload).error
    {
      ghost var s0 := gameState;
      if gameState.phase != Handbuilding {
        return Some(GameError(WrongPhase, "Can only prepare cards during handbuilding phase"));
      }
      var currentPlayer := GetCurrentPlayer();
      if currentPlayer.None? || currentPlayer.value.id != pid {
        return Some(GameError(NotPlayerTurn, "It is not your turn"));
      }
      if !Given(payload.cardId) || !Given(payload.environmentId) {
        return Some(GameError(InvalidMove, "Card ID and Environment ID are required"));
      }
      var i: nat := gameState.currentPlayerIndex;
      var player := gameState.players[i];
      var cardIndex := FirstIndex(player.hand, CardId, payload.cardId.value);
      if cardIndex.None? {
        return Some(GameError(InvalidMove, "Card not found in hand"));
      }
      var e := payload.environmentId.value;
      if FirstIndex(gameState.environmentStates, EnvironmentStateId, e).None? {
        return Some(GameError(InvalidMove, "Environment not found"));
      }
      var card := player.hand[cardIndex.value];
      player := player.(hand := RemoveAt(player.hand, cardIndex.value));
      gameState := gameState.(preparedCards := Steps.AppendPrepared(gameState.preparedCards, e, pid, card));
      if |player.deck| > 0 {
        var d := CardRules.DrawCards(player.deck, 1);
        player := player.(hand := player.hand + d.drawnCards, deck := d.remainingDeck);
      }
      gameState := gameState.(players := gameState.players[i := player]);
      assert gameState == Steps.Prepared(s0, i, cardIndex.value, e);
      events := events + [CardPrepared(pid, card, e)];
      NextTurn();
      err := None;
    }

    method InitiateSkirmishAction(pid: string, payload: Payload) returns (err: Option<GameError>)
      requires Steps.InitiateDefined(gameState, payload)
      modifies this
      ensures Performed(old(gameState), old(events), Steps.InitiateSkirmishAction(old(gameState), pid, payload))
      ensures err == Steps.InitiateSkirmishAction(old(gameState), pid, payload).error
    {
      if gameState.phase != Handbuilding {
        return Some(GameError(WrongPhase, "Can only initiate skirmishes during handbuilding phase"));
      }
      if !Given(payload.environmentId) {
        return Some(GameError(InvalidMove, "Environment ID is required"));
      }
      var e := payload.environmentId.value;
      var ready := CardRules.CanInitiateSkirmish(gameState.preparedCards[e]);
      if !ready {
        return Some(GameError(EnvironmentNotReady, "Need at least 8 total prepared cards to initiate skirmish"));
      }
      StartSkirmish(e, pid);
      err := None;
    }

    method StartSkirmish(e: string, initiatorId: string)
      requires e in gameState.preparedCards
      modifies this
      ensures Performed(old(gameState), old(events), Steps.StartSkirmish(old(gameState), e, initiatorId))
    {
      ghost var ps0 := gameState.players;
      gameState := gameState.(phase := Skirmish, activeEnvironmentId := Some(e), skirmishInitiatorId := Some(initiatorId));
      var prepared := gameState.preparedCards[e];
      var i := 0;
      while i < |gameState.players|
        invariant 0 <= i <= |gameState.players| == |ps0|
        invariant forall k :: 0 <= k < i ==>
          gameState.players[k] == Steps.PickUp(ps0[k], if ps0[k].id in prepared then prepared[ps0[k].id] else [])
        invariant forall k :: i <= k < |ps0| ==> gameState.players[k] == ps0[k]
        invariant events == old(events)
        invariant gameState == old(gameState).(phase := Skirmish, activeEnvironmentId := Some(e),
                                                skirmishInitiatorId := Some(initiatorId), players := gameState.players)
      {
        var player := gameState.players[i];
        var playerPrepared := if player.id in prepared then prepared[player.id] else [];
        player := player.(hand := player.hand + playerPrepared, hasPassed := false);
        if |player.hand| > CardRules.SKIRMISH_HAND_LIMIT {
          var excess := |player.hand| - CardRules.SKIRMISH_HAND_LIMIT;
          var discarded := player.hand[|player.hand| - excess..];
          player := player.(hand := player.hand[..|player.hand| - excess], discardPile := player.discardPile + discarded);
        }
        gameState := gameState.(players := gameState.players[i := player]);
        i := i + 1;
      }
      assert gameState.players == Steps.PickUpAll(ps0, prepared);
      gameState := gameState.(preparedCards := gameState.preparedCards[e := Steps.ClearedLists(prepared)]);
      var initiatorIndex := FirstIndex(gameState.players, PlayerId, initiatorId);
      gameState := gameState.(currentPlayerIndex := if initiatorIndex.Some? then initiatorIndex.value else -1);
      events := events + [SkirmishInitiated(e, initiatorId)];
    }

    method PlayCardAction(pid: string, payload: Payload) returns (err: Option<GameError>)
      modifies this
      ensures Performed(old(gameState), old(events), Steps.PlayCardAction(old(gameState), pid, payload))
      ensures err == Steps.PlayCardAction(old(gameState), pid, payload).error
    {
      ghost var s0 := gameState;
      if gameState.phase != Skirmish {
        return Some(GameError(WrongPhase, "Can only play cards during skirmish phase"));
      }
      var currentPlayer := GetCurrentPlayer();
      if currentPlayer.None? || currentPlayer.value.id != pid {
        return Some(GameError(NotPlayerTurn, "It is not your turn"));
      }
      var i: nat := gameState.currentPlayerIndex;
      var player := gameState.players[i];
      if player.hasPassed {
        return Some(GameError(InvalidMove, "You have already passed"));
      }
      if !Given(payload.cardId) {
        return Some(GameError(InvalidMove, "Card ID is required"));
      }
      var cardIndex := FirstIndex(player.hand, CardId, payload.cardId.value);
      if cardIndex.None? {
        return Some(GameError(InvalidMove, "Card not found in hand"));
      }
      var card := player.hand[cardIndex.value];
      var active := Steps.ActiveIndex(gameState);
      if active.None? {
        return Some(GameError(InvalidMove, "No active environment"));
      }
      var a := active.value;
      var environment := gameState.environmentStates[a];
      if !CardRules.CanPlayCard(card, environment.environment.title, Scoring.AllCardsInPlay(environment.cardsInPlay)) {
        return Some(GameError(CannotPlayCard, "This card cannot be played right now"));
      }
      gameState := gameState.(players := gameState.players[i := player.(hand := RemoveAt(player.hand, cardIndex.value))]);
      environment := environment.(cardsInPlay := Steps.AddToSlot(environment.cardsInPlay, pid, card));
      gameState := gameState.(environmentStates := gameState.environmentStates[a := environment]);
      assert gameState == Steps.Played(s0, i, cardIndex.value, a);
      events := events + [CardPlayed(pid, card, gameState.activeEnvironmentId)];
      NextTurn();
      err := None;
    }

    method TakeItemAction(pid: string, payload: Payload) returns (err: Option<GameError>)
      modifies this
      ensures Performed(old(gameState), old(events), Steps.TakeItemAction(old(gameState), pid, payload))
      ensures err == Steps.TakeItemAction(old(gameState), pid, payload).error
    {
      ghost var s0 := gameState;
      if gameState.phase != Skirmish {
        return Some(GameError(WrongPhase, "Can only take items during skirmish phase"));
      }
      var currentPlayer := GetCurrentPlayer();
      if currentPlayer.None? || currentPlayer.value.id != pid {
        return Some(GameError(NotPlayerTurn, "It is not your turn"));
      }
      var i: nat := gameState.currentPlayerIndex;
      var player := gameState.players[i];
      if player.hasPassed {
        return Some(GameError(InvalidMove, "You have already passed"));
      }
      if |player.hand| == 0 {
        return Some(GameError(InsufficientCards, "Must have at least 1 card in hand to take an item"));
      }
      if !Given(payload.itemId) {
        return Some(GameError(InvalidMove, "Item ID is required"));
      }
      var active := Steps.ActiveIndex(gameState);
      if active.None? {
        return Some(GameError(InvalidMove, "No active environment"));
      }
      var a := active.value;
      var environment := gameState.environmentStates[a];
      var itemIndex := FirstIndex(environment.items, ItemId, payload.itemId.value);
      if itemIndex.None? {
        return Some(GameError(ItemNotAvailable, "Item not available"));
      }
      var item := environment.items[itemIndex.value];
      var discardCost := Steps.CostOf(item);
      var ids: seq<string> := [];
      if discardCost > 0 {
        if payload.discardedCardIds.None? || |payload.discardedCardIds.value| != discardCost {
          return Some(GameError(InsufficientCards, "Must discard " + Images.NatToString(discardCost) + " cards to take this item"));
        }
        if !Steps.AllInHand(player.hand, payload.discardedCardIds.value) {
          return Some(GameError(InvalidMove, "Some discarded cards not found in hand"));
        }
        ids := payload.discardedCardIds.value;
      }
      TakeItem(i, a, itemIndex.value, ids);
      err := None;
    }

    /** A TAKE_ITEM that passed its checks: the discards are paid, the item moves from the
        environment to the player's used list, ItemTaken is emitted and the turn advances. */
    method TakeItem(i: nat, a: nat, ii: nat, ids: seq<string>)
      requires i < |gameState.players| && a < |gameState.environmentStates|
      requires ii < |gameState.environmentStates[a].items|
      modifies this
      ensures Performed(old(gameState), old(events),
        Steps.Emit([ItemTaken(old(gameState).players[i].id, old(gameState).environmentStates[a].items[ii],
                              old(gameState).activeEnvironmentId)],
                   Steps.NextTurn(Steps.Taken(old(gameState), i, a, ii, ids))))
    {
      ghost var s0 := gameState;
      var player := gameState.players[i];
      var pid := player.id;
      var hand, discardPile := DiscardCardsById(player.hand, player.discardPile, ids);
      player := player.(hand := hand, discardPile := discardPile);
      gameState := gameState.(players := gameState.players[i := player]);
      var environment := gameState.environmentStates[a];
      var item := environment.items[ii];
      environment := environment.(items := RemoveAt(environment.items, ii),
                                  usedItems := environment.usedItems[pid := Steps.UsedBy(environment.usedItems, pid) + [item]]);
      gameState := gameState.(environmentStates := gameState.environmentStates[a := environment]);
      assert gameState == Steps.Taken(s0, i, a, ii, ids);
      events := events + [ItemTaken(pid, item, gameState.activeEnvironmentId)];
      NextTurn();
    }

    method PassAction(pid: string) returns (err: Option<GameError>)
      requires Valid()
      modifies this
      ensures Performed(old(gameState), old(events), Steps.PassAction(old(gameState), pid))
      ensures err == Steps.PassAction(old(gameState), pid).error
    {
      ghost var s0 := gameState;
      if gameState.phase != Skirmish {
        return Some(GameError(WrongPhase, "Can only pass during skirmish phase"));
      }
      var found := FirstIndex(gameState.players, PlayerId, pid);
      if found.None? {
        return Some(GameError(PlayerNotInGame, "Player not in game"));
      }
      var i := found.value;
      var player := gameState.players[i];
      if player.hasPassed {
        return Some(GameError(InvalidMove, "You have already passed"));
      }
      player := player.(hasPassed := true);
      if |player.hand| > 0 {
        player := player.(discardPile := player.discardPile + player.hand, hand := []);
      } else {
        assert player.discardPile + player.hand == player.discardPile;
      }
      gameState := gameState.(players := gameState.players[i := player]);
      assert gameState == Steps.Passed(s0, i);
      Invariants.SetPlayerValid(s0, i, player);
      events := events + [PlayerPassed(pid)];
      ghost var s1 := gameState;
      ghost var e1 := events;
      if Scoring.ShouldEndSkirmish(gameState.players) {
        EndSkirmish();
        ConcatAssoc(old(events), [PlayerPassed(pid)], Steps.EndSkirmish(s1).emitted);
      } else {
        NextTurn();
        ConcatAssoc(old(events), [PlayerPassed(pid)], Steps.NextTurn(s1).emitted);
      }
      err := None;
    }

    method DiscardToHandLimitAction(pid: string, payload: Payload) returns (err: Option<GameError>)
      modifies this
      ensures Performed(old(gameState), old(events), Steps.DiscardToHandLimitAction(old(gameState), pid, payload))
      ensures err == Steps.DiscardToHandLimitAction(old(gameState), pid, payload).error
    {
      var found := FirstIndex(gameState.players, PlayerId, pid);
      if found.None? {
        return Some(GameError(PlayerNotInGame, "Player not in game"));
      }
      var i := found.value;
      if payload.discardedCardIds.None? {
        return Some(GameError(InvalidMove, "Must specify cards to discard"));
      }
      var player := gameState.players[i];
      var hand, discardPile := DiscardCardsById(player.hand, player.discardPile, payload.discardedCardIds.value);
      gameState := gameState.(players := gameState.players[i := player.(hand := hand, discardPile := discardPile)]);
      var handLimit := CardRules.EngineHandLimit(gameState.phase);
      if |hand| > handLimit {
        return Some(GameError(HandLimitExceeded, "Hand still exceeds limit of " + Images.NatToString(handLimit)));
      }
      events := events + [GameUpdated];
      err := None;
    }

    // -------------------------------------------------------------- skirmish resolution

    method EndSkirmish()
      requires Valid() && gameState.phase == Skirmish && |gameState.players| > 0
      modifies this
      ensures Performed(old(gameState), old(events), Steps.EndSkirmish(old(gameState)))
    {
      ghost var s0 := gameState;
      var active := Steps.ActiveIndex(gameState);
      if active.None? {
        return;
      }
      var a := active.value;
      var scores := Scoring.CalculateScores(gameState.players, gameState.environmentStates[a].cardsInPlay);
      var winner := Scoring.DetermineWinner(scores);
      ghost var s1 := s0;
      if winner.Some? {
        CreditWin(winner.value.playerId);
        s1 := Steps.CreditWin(s0, winner.value.playerId);
        Invariants.CreditWinValid(s0, winner.value.playerId);
      }
      assert Zones.Valid(gameState);
      FinishSkirmish(a, SkirmishEnded(gameState.activeEnvironmentId, Scoring.MarkWinner(scores), winner), winner);
    }

    /** After the scoring of environment a: the cleanup, the SkirmishEnded event, and then the
        end of the game when the winner has won enough skirmishes, or else the next round. */
    method FinishSkirmish(a: nat, ended: Event, winner: Option<ScoreResult>)
      requires a < |gameState.environmentStates| && |gameState.players| > 0
      requires Distinct(Ids(gameState.players)) && Distinct(SlotIds(gameState.environmentStates[a].cardsInPlay))
      modifies this
      ensures var s2 := Steps.CleanupAfterSkirmish(old(gameState), a);
        Performed(old(gameState), old(events),
          if winner.Some? && Steps.WonEnough(s2, winner.value.playerId)
          then Steps.Emit([ended], Steps.EndGame(s2, Some(winner.value.playerId)))
          else Steps.Emit([ended], Steps.StartNextRound(s2)))
    {
      CleanupAfterSkirmish(a);
      events := events + [ended];
      ghost var s2 := gameState;
      if winner.Some? && Steps.WonEnough(gameState, winner.value.playerId) {
        EndGame(Some(winner.value.playerId));
        ConcatAssoc(old(events), [ended], Steps.EndGame(s2, Some(winner.value.playerId)).emitted);
      } else {
        StartNextRound();
        ConcatAssoc(old(events), [ended], Steps.StartNextRound(s2).emitted);
      }
    }

    /** The skirmish winner, when seated, has one more skirmish won. */
    method CreditWin(pid: string)
      modifies this
      ensures gameState == Steps.CreditWin(old(gameState), pid) && events == old(events)
    {
      var found := FirstIndex(gameState.players, PlayerId, pid);
      if found.Some? {
        var j := found.value;
        gameState := gameState.(players := gameState.players[j := gameState.players[j].(skirmishesWon := gameState.players[j].skirmishesWon + 1)]);
      }
    }

    /** The in-play table is walked entry by entry, each entry's cards going to the discard
        pile of the player with that id; then the environment is cleared and, when the
        environment deck is not empty, replaced. */
    method CleanupAfterSkirmish(a: nat)
      requires a < |gameState.environmentStates|
      requires Distinct(Ids(gameState.players)) && Distinct(SlotIds(gameState.environmentStates[a].cardsInPlay))
      modifies this
      ensures gameState == Steps.CleanupAfterSkirmish(old(gameState), a) && events == old(events)
      ensures gameState.activeEnvironmentId == old(gameState).activeEnvironmentId
      ensures |gameState.players| == |old(gameState).players|
    {
      var environment := gameState.environmentStates[a];
      var players := DiscardEntries(gameState.players, environment.cardsInPlay);
      gameState := gameState.(players := players);
      environment := environment.(cardsInPlay := []);
      if |environment.items| > 0 {
        environment := environment.(items := []);
      }
      assert environment.items == [];
      if |gameState.environmentDeck| > 0 {
        var newEnvironment := gameState.environmentDeck[0];
        gameState := gameState.(environmentDeck := gameState.environmentDeck[1..]);
        environment := environment.(environment := newEnvironment);
        var itemsToAdd := if 1 < |gameState.itemDeck| then 1 else |gameState.itemDeck|;
        if itemsToAdd > 0 {
          assert environment.items + [gameState.itemDeck[0]] == [gameState.itemDeck[0]];
          environment := environment.(items := environment.items + [gameState.itemDeck[0]]);
          gameState := gameState.(itemDeck := gameState.itemDeck[1..]);
        } else {
          assert gameState.itemDeck[0..] == gameState.itemDeck;
        }
        var players := gameState.players;
        gameState := gameState.(preparedCards := gameState.preparedCards[newEnvironment.id := Steps.EmptyLists(Ids(players))]);
        if gameState.activeEnvironmentId.Some? {
          gameState := gameState.(preparedCards := gameState.preparedCards - {gameState.activeEnvironmentId.value});
        }
      }
      gameState := gameState.(environmentStates := gameState.environmentStates[a := environment]);
    }

    method StartNextRound()
      requires |gameState.players| > 0
      modifies this
      ensures Performed(old(gameState), old(events), Steps.StartNextRound(old(gameState)))
    {
      ghost var ps0 := gameState.players;
      gameState := gameState.(phase := Handbuilding, activeEnvironmentId := None, skirmishInitiatorId := None);
      var i := 0;
      while i < |gameState.players|
        invariant 0 <= i <= |gameState.players| == |ps0|
        invariant forall k :: 0 <= k < i ==> gameState.players[k] == Steps.TopUp(ps0[k])
        invariant forall k :: i <= k < |ps0| ==> gameState.players[k] == ps0[k]
        invariant events == old(events)
        invariant gameState == old(gameState).(phase := Handbuilding, activeEnvironmentId := None,
                                                skirmishInitiatorId := None, players := gameState.players)
      {
        var player := gameState.players[i].(hasPassed := false);
        var needCards := if 3 - |player.hand| > 0 then 3 - |player.hand| else 0;
        if needCards > 0 && |player.deck| > 0 {
          var d := CardRules.DrawCards(player.deck, needCards);
          player := player.(hand := player.hand + d.drawnCards, deck := d.remainingDeck);
        }
        gameState := gameState.(players := gameState.players[i := player]);
        i := i + 1;
      }
      assert gameState.players == Steps.TopUpAll(ps0);
      ghost var s1 := gameState;
      ghost var e1 := events;
      NextTurn();
      events := events + [PhaseChanged(Handbuilding)];
      ConcatAssoc(e1, Steps.NextTurn(s1).emitted, [PhaseChanged(Handbuilding)]);
    }
  }
}
