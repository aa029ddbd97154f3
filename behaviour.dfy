/** What each GameEngine operation promises its caller: which inputs it rejects and with
    which error, that a rejection changes nothing, and what a successful call does to the
    turn, the phase and the zones. */
module Behaviour {
  import opened GameTypes
  import opened Zones
  import opened Steps
  import CardRules
  import CardData
  import Scoring
  import Invariants

  function Min(a: nat, b: nat): nat { if a < b then a else b }

  // ---------------------------------------------------------------- turns

  /** The turn passes to the next player in seating order, wrapping around, the turn counter
      goes up by one and nothing else changes. */
  lemma NextTurnFacts(s: GameState)
    requires |s.players| > 0 && s.currentPlayerIndex >= 0
    ensures var t := NextTurn(s).state;
      && t.currentPlayerIndex == (s.currentPlayerIndex + 1) % |s.players|
      && 0 <= t.currentPlayerIndex < |s.players|
      && t.turn == s.turn + 1
      && t == s.(currentPlayerIndex := t.currentPlayerIndex, turn := t.turn)
    ensures NextTurn(s).emitted == [GameUpdated] && NextTurn(s).error.None?
  {
  }

  // ---------------------------------------------------------------- joining and leaving

  /** A join is refused exactly when the game is full or the id is already seated; otherwise
      the new player sits last with an empty hand, a full shuffled deck and the colour for
      the seat, and gets an empty prepared list at every environment. No join starts the game,
      because the newcomer is not ready. */
  lemma AddPlayerFacts(s: GameState, pid: string, name: string, newCardId: nat -> string, random: nat -> nat)
    ensures var r := AddPlayer(s, pid, name, JoiningDeck(newCardId, random));
      && (IsGameFull(s) ==> r.state == s && r.error.Some? && r.error.value.code == GameFull)
      && (!IsGameFull(s) && pid in Ids(s.players) ==> r.state == s && r.error.Some? && r.error.value.code == PlayerNotInGame)
      && (!IsGameFull(s) && pid !in Ids(s.players) ==>
            && r.error.None?
            && |r.state.players| == |s.players| + 1
            && r.state.players[..|s.players|] == s.players
            && r.state.phase == s.phase
            && var p := r.state.players[|s.players|];
               && p.id == pid && p.name == name && p.hand == [] && p.discardPile == []
               && p.color == CardData.JoinColor(|s.players|)
               && multiset(p.deck) == multiset(CardData.CreatePlayerDeck(newCardId)) && |p.deck| == 24
               && !p.isReady && p.isConnected && p.skirmishesWon == 0
               && (forall e :: e in s.preparedCards ==> e in r.state.preparedCards && PreparedList(r.state.preparedCards, e, pid) == [])
               && r.emitted == [PlayerJoined(p)])
  {
    var r := AddPlayer(s, pid, name, JoiningDeck(newCardId, random));
    if !IsGameFull(s) && pid !in Ids(s.players) {
      var p := NewPlayer(s, pid, name, JoiningDeck(newCardId, random));
      CardData.ShuffledIsPermutation(CardData.CreatePlayerDeck(newCardId), random);
      var s1 := s.(players := s.players + [p],
                   preparedCards := SeatPrepared(s.preparedCards, pid));
      assert !AllReady(s1.players) by {
        assert !s1.players[|s.players|].isReady;
      }
      assert s1.players[..|s.players|] == s.players;
    } else if !IsGameFull(s) {
      var k :| 0 <= k < |s.players| && Ids(s.players)[k] == pid;
      assert PlayerId(s.players[k]) == pid;
    }
  }

  /** Leaving: an unknown id is refused; otherwise the player is taken out of the seating and of
      every prepared table, the current index moves back one when it is at or after the removed
      seat (and above 0), and fewer than two players outside setup ends the game. */
  lemma RemovePlayerFacts(s: GameState, pid: string)
    requires Valid(s)
    ensures var r := RemovePlayer(s, pid);
      && (pid !in Ids(s.players) ==> r.state == s && r.emitted == [] && r.error == Some(GameError(PlayerNotInGame, "Player is not in this game")))
      && (pid in Ids(s.players) ==>
            var i := FindPlayer(s, pid).value;
            && r.error.None?
            && r.state.players == RemoveAt(s.players, i)
            && pid !in Ids(r.state.players)
            && r.state.currentPlayerIndex ==
                 (if s.currentPlayerIndex >= i && s.currentPlayerIndex > 0 then s.currentPlayerIndex - 1 else s.currentPlayerIndex)
            && (r.state.players != [] ==> 0 <= r.state.currentPlayerIndex < |r.state.players|)
            && (forall e :: e in r.state.preparedCards ==> pid !in r.state.preparedCards[e])
            && r.state.phase == (if |s.players| - 1 < 2 && s.phase != Setup then Finished else s.phase)
            && r.emitted[0] == PlayerLeft(s.players[i]))
  {
    var r := RemovePlayer(s, pid);
    Invariants.RemovePlayerValid(s, pid);
    if pid in Ids(s.players) {
      var k :| 0 <= k < |s.players| && Ids(s.players)[k] == pid;
      assert PlayerId(s.players[k]) == pid;
      var i := FindPlayer(s, pid).value;
      Invariants.IdsRemoveAt(s.players, i);
    }
  }

  /** Readying up records the flag; the game starts exactly when this makes every one of at
      least two players ready during setup. */
  lemma SetPlayerReadyFacts(s: GameState, pid: string, ready: bool)
    requires Valid(s)
    ensures var r := SetPlayerReady(s, pid, ready);
      && (pid !in Ids(s.players) ==> r.state == s && r.error == Some(GameError(PlayerNotInGame, "Player is not in this game")))
      && (pid in Ids(s.players) ==>
            var i := FindPlayer(s, pid).value;
            && r.error.None?
            && r.state.players[i].isReady == ready
            && (r.state.phase == Handbuilding <==>
                  s.phase == Handbuilding
                  || (s.phase == Setup && |s.players| >= 2 && ready
                      && forall j :: 0 <= j < |s.players| && j != i ==> s.players[j].isReady)))
  {
    if pid in Ids(s.players) {
      var k :| 0 <= k < |s.players| && Ids(s.players)[k] == pid;
      assert PlayerId(s.players[k]) == pid;
      var i := FindPlayer(s, pid).value;
      var s1 := SetPlayer(s, i, s.players[i].(isReady := ready));
      assert AllReady(s1.players) <==> ready && forall j :: 0 <= j < |s.players| && j != i ==> s.players[j].isReady by {
        assert s1.players[i].isReady == ready;
        assert forall j :: 0 <= j < |s.players| && j != i ==> s1.players[j] == s.players[j];
      }
    }
  }

  // ---------------------------------------------------------------- handbuilding

  /** The game leaves setup exactly when there are at least two players and all are ready; it then
      starts turn 1 with the first player, and each player's hand is the first three cards of
      their deck (all of it when shorter). Otherwise nothing happens. */
  lemma CheckGameStartFacts(s: GameState)
    ensures var r := CheckGameStart(s);
      var go := s.phase == Setup && |s.players| >= 2 && AllReady(s.players);
      && (!go ==> r.state == s && r.emitted == [])
      && (go ==>
            && r.state.phase == Handbuilding && r.state.turn == 1 && r.state.currentPlayerIndex == 0
            && r.emitted == [PhaseChanged(Handbuilding)]
            && |r.state.players| == |s.players|
            && forall i :: 0 <= i < |s.players| ==>
                 var p := s.players[i];
                 var m := Min(3, |p.deck|);
                 r.state.players[i] == p.(hand := p.deck[..m], deck := p.deck[m..], hasPassed := false))
  {
    var r := CheckGameStart(s);
    if s.phase == Setup && |s.players| >= 2 && AllReady(s.players) {
      forall i | 0 <= i < |s.players|
        ensures var p := s.players[i]; var m := Min(3, |p.deck|);
          r.state.players[i] == p.(hand := p.deck[..m], deck := p.deck[m..], hasPassed := false)
      {
        var p := s.players[i];
        var d := CardRules.DrawCards(p.deck, 3);
        var m := Min(3, |p.deck|);
        assert d.drawnCards == p.deck[..m] && d.remainingDeck == p.deck[m..] by {
          assert d.drawnCards + d.remainingDeck == p.deck;
          assert |d.drawnCards| == m;
        }
      }
    }
  }

  /** Every check PREPARE_CARD makes, in the order it makes them. */
  predicate PrepareAccepted(s: GameState, pid: string, payload: Payload) {
    && s.phase == Handbuilding
    && IsCurrent(s, pid)
    && Given(payload.cardId) && Given(payload.environmentId)
    && FirstIndex(s.players[s.currentPlayerIndex].hand, CardId, payload.cardId.value).Some?
    && FirstIndex(s.environmentStates, EnvironmentStateId, payload.environmentId.value).Some?
  }

  /** PREPARE_CARD succeeds exactly when every check passes, and a failure changes nothing. */
  lemma PrepareCardRejects(s: GameState, pid: string, payload: Payload)
    ensures var r := PrepareCardAction(s, pid, payload);
      && (r.error.None? <==> PrepareAccepted(s, pid, payload))
      && (r.error.Some? ==> r.state == s && r.emitted == [])
      && (s.phase != Handbuilding ==> r.error.value.code == WrongPhase)
      && (s.phase == Handbuilding && !IsCurrent(s, pid) ==> r.error.value.code == NotPlayerTurn)
  {
  }

  /** The hand loses the prepared card and draws the top card of the deck, if any. */
  lemma ReplaceFromDeckFacts(p: Player, ci: nat)
    requires ci < |p.hand|
    ensures var m := Min(1, |p.deck|);
      var t := ReplaceFromDeck(p, ci);
      && t.hand == RemoveAt(p.hand, ci) + p.deck[..m]
      && t.deck == p.deck[m..]
      && t == p.(hand := t.hand, deck := t.deck)
  {
    if p.deck != [] {
      var d := CardRules.DrawCards(p.deck, 1);
      assert d.drawnCards == p.deck[..1] && d.remainingDeck == p.deck[1..] by {
        assert d.drawnCards + d.remainingDeck == p.deck;
      }
    }
  }

  lemma PreparedFacts(s: GameState, i: nat, ci: nat, e: string)
    requires i < |s.players| && ci < |s.players[i].hand|
    ensures var t := Prepared(s, i, ci, e);
      var p := s.players[i];
      && PreparedList(t.preparedCards, e, p.id) == PreparedList(s.preparedCards, e, p.id) + [p.hand[ci]]
      && (forall f, q :: f != e || q != p.id ==> PreparedList(t.preparedCards, f, q) == PreparedList(s.preparedCards, f, q))
      && t.players == s.players[i := ReplaceFromDeck(p, ci)]
      && t == s.(players := t.players, preparedCards := t.preparedCards)
  {
  }

  /** A prepared card leaves the hand for the end of the player's list at the environment, one
      card is drawn from the deck when there is one (so the hand keeps its size), and the turn
      passes on. No other list, player or environment changes. */
  lemma PrepareCardFacts(s: GameState, pid: string, payload: Payload)
    requires PrepareAccepted(s, pid, payload)
    ensures var r := PrepareCardAction(s, pid, payload);
      var t := r.state;
      var i := s.currentPlayerIndex;
      var p := s.players[i];
      var ci := FirstIndex(p.hand, CardId, payload.cardId.value).value;
      var c := p.hand[ci];
      var e := payload.environmentId.value;
      var m := Min(1, |p.deck|);
      && r.error.None?
      && PreparedList(t.preparedCards, e, pid) == PreparedList(s.preparedCards, e, pid) + [c]
      && (forall f, q :: f != e || q != pid ==> PreparedList(t.preparedCards, f, q) == PreparedList(s.preparedCards, f, q))
      && |t.players| == |s.players|
      && t.players[i].hand == RemoveAt(p.hand, ci) + p.deck[..m]
      && t.players[i].deck == p.deck[m..]
      && (p.deck != [] ==> |t.players[i].hand| == |p.hand|)
      && (forall j :: 0 <= j < |s.players| && j != i ==> t.players[j] == s.players[j])
      && t.environmentStates == s.environmentStates
      && t.turn == s.turn + 1
      && t.currentPlayerIndex == (i + 1) % |s.players|
      && r.emitted == [CardPrepared(pid, c, e), GameUpdated]
  {
    var i: nat := s.currentPlayerIndex;
    var p := s.players[i];
    var ci := FirstIndex(p.hand, CardId, payload.cardId.value).value;
    var e := payload.environmentId.value;
    var u := Prepared(s, i, ci, e);
    assert PrepareCardAction(s, pid, payload) == Emit([CardPrepared(pid, p.hand[ci], e)], NextTurn(u));
    assert p.id == pid;
    PreparedTurnFacts(s, i, ci, e);
    NextTurnFacts(u);
  }

  /** The state after the prepare step and the turn change, for seat i and hand position ci. */
  lemma PreparedTurnFacts(s: GameState, i: nat, ci: nat, e: string)
    requires i < |s.players| && ci < |s.players[i].hand| && s.currentPlayerIndex >= 0
    ensures var t := NextTurn(Prepared(s, i, ci, e)).state;
      var p := s.players[i];
      var m := Min(1, |p.deck|);
      && PreparedList(t.preparedCards, e, p.id) == PreparedList(s.preparedCards, e, p.id) + [p.hand[ci]]
      && (forall f, q :: f != e || q != p.id ==> PreparedList(t.preparedCards, f, q) == PreparedList(s.preparedCards, f, q))
      && |t.players| == |s.players|
      && t.players[i].hand == RemoveAt(p.hand, ci) + p.deck[..m]
      && t.players[i].deck == p.deck[m..]
      && (p.deck != [] ==> |t.players[i].hand| == |p.hand|)
      && (forall j :: 0 <= j < |s.players| && j != i ==> t.players[j] == s.players[j])
      && t.environmentStates == s.environmentStates
      && t.turn == s.turn + 1
      && t.currentPlayerIndex == (s.currentPlayerIndex + 1) % |s.players|
  {
    var p := s.players[i];
    var u := Prepared(s, i, ci, e);
    ReplaceFromDeckFacts(p, ci);
    PreparedFacts(s, i, ci, e);
    NextTurnFacts(u);
    var t := NextTurn(u).state;
    assert t.players == s.players[i := ReplaceFromDeck(p, ci)];
    assert t.players[i] == ReplaceFromDeck(p, ci);
    assert t.preparedCards == u.preparedCards;
  }

  // ---------------------------------------------------------------- INITIATE_SKIRMISH

  /** No turn check: any player may initiate during handbuilding. A skirmish starts exactly when
      at least eight cards are prepared at the named environment in all; otherwise
      ENVIRONMENT_NOT_READY, and a failure changes nothing. */
  lemma InitiateSkirmishFacts(s: GameState, pid: string, payload: Payload)
    requires InitiateDefined(s, payload)
    ensures var r := InitiateSkirmishAction(s, pid, payload);
      && (r.error.Some? ==> r.state == s && r.emitted == [])
      && (s.phase != Handbuilding ==> r.error.Some? && r.error.value.code == WrongPhase)
      && (s.phase == Handbuilding && !Given(payload.environmentId) ==> r.error.Some? && r.error.value.code == InvalidMove)
      && (s.phase == Handbuilding && Given(payload.environmentId) ==>
            var e := payload.environmentId.value;
            && (r.error.Some? <==> CardRules.SumLengths(s.preparedCards[e]) < CardRules.SKIRMISH_THRESHOLD)
            && (r.error.Some? ==> r.error.value.code == EnvironmentNotReady)
            && (r.error.None? ==> r == StartSkirmish(s, e, pid)))
  {
  }

  /** Picking up: the prepared cards join the end of the hand, and the hand is cut back to ten,
      the excess from the end going to the discard pile. */
  lemma PickUpFacts(p: Player, prepared: seq<Card>)
    ensures var h := p.hand + prepared;
      var m := Min(CardRules.SKIRMISH_HAND_LIMIT, |h|);
      && PickUp(p, prepared) == p.(hand := h[..m], discardPile := p.discardPile + h[m..], hasPassed := false)
      && |PickUp(p, prepared).hand| <= CardRules.SKIRMISH_HAND_LIMIT
  {
    var h := p.hand + prepared;
    if |h| <= CardRules.SKIRMISH_HAND_LIMIT {
      assert h[..|h|] == h && h[|h|..] == [];
    }
  }

  /** Starting a skirmish: each player picks up their prepared cards at the environment, every
      list there is emptied, and the initiator becomes the current player. */
  lemma StartSkirmishFacts(s: GameState, e: string, initiator: string)
    requires e in s.preparedCards
    ensures var r := StartSkirmish(s, e, initiator);
      var t := r.state;
      && t.phase == Skirmish && t.activeEnvironmentId == Some(e) && t.skirmishInitiatorId == Some(initiator)
      && |t.players| == |s.players|
      && (forall i :: 0 <= i < |s.players| ==>
            var p := s.players[i];
            var h := p.hand + PreparedList(s.preparedCards, e, p.id);
            var m := Min(CardRules.SKIRMISH_HAND_LIMIT, |h|);
            && t.players[i] == p.(hand := h[..m], discardPile := p.discardPile + h[m..], hasPassed := false)
            && |t.players[i].hand| <= CardRules.SKIRMISH_HAND_LIMIT)
      && AllEmptyAt(t.preparedCards, e)
      && (forall q :: q in t.preparedCards[e] <==> q in s.preparedCards[e])
      && (forall f :: f != e && f in s.preparedCards ==> f in t.preparedCards && t.preparedCards[f] == s.preparedCards[f])
      && r.emitted == [SkirmishInitiated(e, initiator)]
  {
    var t := StartSkirmish(s, e, initiator).state;
    forall i | 0 <= i < |s.players|
      ensures var p := s.players[i];
        var h := p.hand + PreparedList(s.preparedCards, e, p.id);
        var m := Min(CardRules.SKIRMISH_HAND_LIMIT, |h|);
        && t.players[i] == p.(hand := h[..m], discardPile := p.discardPile + h[m..], hasPassed := false)
        && |t.players[i].hand| <= CardRules.SKIRMISH_HAND_LIMIT
    {
      PickUpFacts(s.players[i], PreparedList(s.preparedCards, e, s.players[i].id));
    }
  }

  /** The initiator, when seated, becomes the current player; otherwise the index is -1, as
      `findIndex` returns. */
  lemma StartSkirmishCurrentPlayer(s: GameState, e: string, initiator: string)
    requires e in s.preparedCards
    ensures var t := StartSkirmish(s, e, initiator).state;
      && (initiator in Ids(s.players) ==>
            0 <= t.currentPlayerIndex < |t.players| && t.players[t.currentPlayerIndex].id == initiator)
      && (initiator !in Ids(s.players) ==> t.currentPlayerIndex == -1)
  {
    var t := StartSkirmish(s, e, initiator).state;
    if initiator in Ids(s.players) {
      var k :| 0 <= k < |t.players| && Ids(t.players)[k] == initiator;
      assert PlayerId(t.players[k]) == initiator;
    } else {
      assert FirstIndex(t.players, PlayerId, initiator).None? by {
        forall j | 0 <= j < |t.players| ensures PlayerId(t.players[j]) != initiator {
          assert Ids(t.players)[j] == t.players[j].id;
        }
      }
    }
  }

  // ---------------------------------------------------------------- PLAY_CARD

  /** The checks PLAY_CARD makes before the legality check, in the order it makes them. */
  predicate PlayReachesLegality(s: GameState, pid: string, payload: Payload) {
    && s.phase == Skirmish
    && IsCurrent(s, pid)
    && !s.players[s.currentPlayerIndex].hasPassed
    && Given(payload.cardId)
    && FirstIndex(s.players[s.currentPlayerIndex].hand, CardId, payload.cardId.value).Some?
    && ActiveIndex(s).Some?
  }

  /** The legality check on the named card, at the active environment. */
  predicate PlayLegal(s: GameState, pid: string, payload: Payload)
    requires PlayReachesLegality(s, pid, payload)
  {
    var hand := s.players[s.currentPlayerIndex].hand;
    var env := s.environmentStates[ActiveIndex(s).value];
    CardRules.CanPlayCard(hand[FirstIndex(hand, CardId, payload.cardId.value).value],
                          env.environment.title, Scoring.AllCardsInPlay(env.cardsInPlay))
  }

  /** Every check PLAY_CARD makes, in the order it makes them. */
  predicate PlayAccepted(s: GameState, pid: string, payload: Payload) {
    PlayReachesLegality(s, pid, payload) && PlayLegal(s, pid, payload)
  }

  /** PLAY_CARD succeeds exactly when every check passes, and a failure changes nothing. The
      first failing check decides the code: WRONG_PHASE, NOT_PLAYER_TURN, then INVALID_MOVE for
      a passed player, a missing id, a card not in hand or no active environment, and
      CANNOT_PLAY_CARD exactly when only the legality check fails. */
  lemma PlayCardRejects(s: GameState, pid: string, payload: Payload)
    ensures var r := PlayCardAction(s, pid, payload);
      && (r.error.None? <==> PlayAccepted(s, pid, payload))
      && (r.error.Some? ==> r.state == s && r.emitted == [])
      && (s.phase != Skirmish ==> r.error.value.code == WrongPhase)
      && (s.phase == Skirmish && !IsCurrent(s, pid) ==> r.error.value.code == NotPlayerTurn)
      && (s.phase == Skirmish && IsCurrent(s, pid) && !PlayReachesLegality(s, pid, payload) ==>
            r.error.value.code == InvalidMove)
      && (PlayReachesLegality(s, pid, payload) && !PlayLegal(s, pid, payload) ==>
            r.error == Some(GameError(CannotPlayCard, "This card cannot be played right now")))
  {
  }

  /** A Beast cannot be played while a Fire card is in play at the active environment. */
  lemma BeastBlockedByFire(s: GameState, pid: string, payload: Payload)
    requires PlayReachesLegality(s, pid, payload)
    requires var hand := s.players[s.currentPlayerIndex].hand;
      hand[FirstIndex(hand, CardId, payload.cardId.value).value].cardType == Beast
    requires CardRules.HasCardType(Scoring.AllCardsInPlay(s.environmentStates[ActiveIndex(s).value].cardsInPlay), Fire)
    ensures PlayCardAction(s, pid, payload).error.Some?
    ensures PlayCardAction(s, pid, payload).error.value.code == CannotPlayCard
    ensures PlayCardAction(s, pid, payload).state == s
  {
    var hand := s.players[s.currentPlayerIndex].hand;
    var env := s.environmentStates[ActiveIndex(s).value];
    CardRules.CanPlayCardExactly(hand[FirstIndex(hand, CardId, payload.cardId.value).value],
                                 env.environment.title, Scoring.AllCardsInPlay(env.cardsInPlay));
    PlayCardRejects(s, pid, payload);
  }

  lemma PlayedFacts(s: GameState, i: nat, ci: nat, a: nat)
    requires i < |s.players| && ci < |s.players[i].hand| && a < |s.environmentStates|
    requires Distinct(SlotIds(s.environmentStates[a].cardsInPlay))
    ensures var t := Played(s, i, ci, a);
      var p := s.players[i];
      var env := s.environmentStates[a];
      && t.players == s.players[i := p.(hand := RemoveAt(p.hand, ci))]
      && |t.environmentStates| == |s.environmentStates|
      && t.environmentStates[a] == env.(cardsInPlay := t.environmentStates[a].cardsInPlay)
      && SlotCards(t.environmentStates[a].cardsInPlay, p.id) == SlotCards(env.cardsInPlay, p.id) + [p.hand[ci]]
      && (forall q :: q != p.id ==> SlotCards(t.environmentStates[a].cardsInPlay, q) == SlotCards(env.cardsInPlay, q))
      && (forall j :: 0 <= j < |s.environmentStates| && j != a ==> t.environmentStates[j] == s.environmentStates[j])
      && t == s.(players := t.players, environmentStates := t.environmentStates)
  {
    var p := s.players[i];
    Invariants.AddToSlotFacts(s.environmentStates[a].cardsInPlay, p.id, p.hand[ci]);
  }

  /** A played card leaves the hand for the end of the player's in-play list at the active
      environment and the turn passes on; nothing else changes. */
  lemma PlayCardFacts(s: GameState, pid: string, payload: Payload)
    requires Valid(s) && PlayAccepted(s, pid, payload)
    ensures var r := PlayCardAction(s, pid, payload);
      var t := r.state;
      var i := s.currentPlayerIndex;
      var p := s.players[i];
      var ci := FirstIndex(p.hand, CardId, payload.cardId.value).value;
      var c := p.hand[ci];
      var a := ActiveIndex(s).value;
      && r.error.None?
      && t.players == s.players[i := p.(hand := RemoveAt(p.hand, ci))]
      && SlotCards(t.environmentStates[a].cardsInPlay, pid) == SlotCards(s.environmentStates[a].cardsInPlay, pid) + [c]
      && (forall q :: q != pid ==> SlotCards(t.environmentStates[a].cardsInPlay, q) == SlotCards(s.environmentStates[a].cardsInPlay, q))
      && (forall j :: 0 <= j < |s.environmentStates| && j != a ==> t.environmentStates[j] == s.environmentStates[j])
      && t.preparedCards == s.preparedCards
      && t.turn == s.turn + 1
      && t.currentPlayerIndex == (i + 1) % |s.players|
      && r.emitted == [CardPlayed(pid, c, s.activeEnvironmentId), GameUpdated]
  {
    var i: nat := s.currentPlayerIndex;
    var p := s.players[i];
    var ci := FirstIndex(p.hand, CardId, payload.cardId.value).value;
    var a := ActiveIndex(s).value;
    var u := Played(s, i, ci, a);
    assert PlayCardAction(s, pid, payload) == Emit([CardPlayed(pid, p.hand[ci], s.activeEnvironmentId)], NextTurn(u));
    PlayedFacts(s, i, ci, a);
    NextTurnFacts(u);
    var t := PlayCardAction(s, pid, payload).state;
    assert t.players == u.players && t.environmentStates == u.environmentStates;
  }

  // ---------------------------------------------------------------- TAKE_ITEM

  /** Every check TAKE_ITEM makes, in the order it makes them; the discard check uses the
      item's cost, with a non-numeric cost counting as 0. */
  predicate TakeAccepted(s: GameState, pid: string, payload: Payload) {
    && s.phase == Skirmish
    && IsCurrent(s, pid)
    && var p := s.players[s.currentPlayerIndex];
       && !p.hasPassed
       && |p.hand| > 0
       && Given(payload.itemId)
       && ActiveIndex(s).Some?
       && var env := s.environmentStates[ActiveIndex(s).value];
          && FirstIndex(env.items, ItemId, payload.itemId.value).Some?
          && var cost := CostOf(env.items[FirstIndex(env.items, ItemId, payload.itemId.value).value]);
             cost > 0 ==> payload.discardedCardIds.Some? && |payload.discardedCardIds.value| == cost
                          && AllInHand(p.hand, payload.discardedCardIds.value)
  }

  /** TAKE_ITEM succeeds exactly when every check passes; every check comes before any card is
      discarded, so a failure changes nothing. */
  lemma TakeItemRejects(s: GameState, pid: string, payload: Payload)
    ensures var r := TakeItemAction(s, pid, payload);
      && (r.error.None? <==> TakeAccepted(s, pid, payload))
      && (r.error.Some? ==> r.state == s && r.emitted == [])
      && (s.phase != Skirmish ==> r.error.value.code == WrongPhase)
      && (s.phase == Skirmish && !IsCurrent(s, pid) ==> r.error.value.code == NotPlayerTurn)
      && ((s.phase == Skirmish && IsCurrent(s, pid) && !s.players[s.currentPlayerIndex].hasPassed
           && s.players[s.currentPlayerIndex].hand == []) ==> r.error.value.code == InsufficientCards)
  {
  }

  lemma DiscardNothing(p: Player)
    ensures DiscardCards(p, []) == p
  {
  }

  lemma TakenFacts(s: GameState, i: nat, a: nat, ii: nat, ids: seq<string>)
    requires i < |s.players| && a < |s.environmentStates| && ii < |s.environmentStates[a].items|
    ensures var t := Taken(s, i, a, ii, ids);
      var p := s.players[i];
      var env := s.environmentStates[a];
      && t.players == s.players[i := DiscardCards(p, ids)]
      && |t.environmentStates| == |s.environmentStates|
      && t.environmentStates[a].items == RemoveAt(env.items, ii)
      && UsedBy(t.environmentStates[a].usedItems, p.id) == UsedBy(env.usedItems, p.id) + [env.items[ii]]
      && (forall q :: q != p.id ==> UsedBy(t.environmentStates[a].usedItems, q) == UsedBy(env.usedItems, q))
      && t.environmentStates[a].cardsInPlay == env.cardsInPlay
      && t.environmentStates[a].environment == env.environment
      && (forall j :: 0 <= j < |s.environmentStates| && j != a ==> t.environmentStates[j] == s.environmentStates[j])
      && t == s.(players := t.players, environmentStates := t.environmentStates)
  {
  }

  /** A taken item leaves the environment's items for the end of the player's used list; the
      named cards are discarded only when the cost is positive, and the turn passes on. */
  lemma TakeItemFacts(s: GameState, pid: string, payload: Payload)
    requires TakeAccepted(s, pid, payload)
    ensures var r := TakeItemAction(s, pid, payload);
      var t := r.state;
      var i := s.currentPlayerIndex;
      var p := s.players[i];
      var a := ActiveIndex(s).value;
      var env := s.environmentStates[a];
      var ii := FirstIndex(env.items, ItemId, payload.itemId.value).value;
      var item := env.items[ii];
      && r.error.None?
      && t.environmentStates[a].items == RemoveAt(env.items, ii)
      && UsedBy(t.environmentStates[a].usedItems, pid) == UsedBy(env.usedItems, pid) + [item]
      && t.environmentStates[a].cardsInPlay == env.cardsInPlay
      && (CostOf(item) <= 0 ==> t.players == s.players)
      && (CostOf(item) > 0 ==> t.players == s.players[i := DiscardCards(p, payload.discardedCardIds.value)])
      && t.turn == s.turn + 1
      && r.emitted == [ItemTaken(pid, item, s.activeEnvironmentId), GameUpdated]
  {
    var i: nat := s.currentPlayerIndex;
    var p := s.players[i];
    var a := ActiveIndex(s).value;
    var env := s.environmentStates[a];
    var ii := FirstIndex(env.items, ItemId, payload.itemId.value).value;
    var ids := if CostOf(env.items[ii]) > 0 then payload.discardedCardIds.value else [];
    var u := Taken(s, i, a, ii, ids);
    assert TakeItemAction(s, pid, payload) == Emit([ItemTaken(pid, env.items[ii], s.activeEnvironmentId)], NextTurn(u));
    TakenFacts(s, i, a, ii, ids);
    DiscardNothing(p);
    NextTurnFacts(u);
    var t := TakeItemAction(s, pid, payload).state;
    assert t.players == u.players && t.environmentStates == u.environmentStates;
  }

  /** Discarding by ids: the hand and discard pile hold the same cards between them, the old
      discard pile is kept as it was with the discards after it, and at most one card goes per id. */
  lemma DiscardCardsFacts(p: Player, ids: seq<string>)
    ensures var t := DiscardCards(p, ids);
      && multiset(t.hand) + multiset(t.discardPile) == multiset(p.hand) + multiset(p.discardPile)
      && |t.discardPile| >= |p.discardPile| && t.discardPile[..|p.discardPile|] == p.discardPile
      && |p.hand| - |t.hand| == |t.discardPile| - |p.discardPile| <= |ids|
      && t == p.(hand := t.hand, discardPile := t.discardPile)
  {
  }

  // ---------------------------------------------------------------- PASS

  /** PASS has no turn check. It is refused outside a skirmish, for an unknown player and for a
      player who already passed; otherwise the player is marked, their whole hand goes to the
      discard pile, and the skirmish ends exactly when every player has passed or holds no
      cards; otherwise the turn passes on. */
  lemma PassFacts(s: GameState, pid: string)
    ensures var r := PassAction(s, pid);
      && (r.error.Some? ==> r.state == s && r.emitted == [])
      && (s.phase != Skirmish ==> r.error.Some? && r.error.value.code == WrongPhase)
      && (s.phase == Skirmish && pid !in Ids(s.players) ==> r.error.Some? && r.error.value.code == PlayerNotInGame)
      && (s.phase == Skirmish && pid in Ids(s.players) ==>
            var i := FindPlayer(s, pid).value;
            var p := s.players[i];
            && (p.hasPassed <==> r.error.Some?)
            && (p.hasPassed ==> r.error.value.code == InvalidMove)
            && (!p.hasPassed ==>
                  var s1 := Passed(s, i);
                  && s1.players[i] == p.(hasPassed := true, hand := [], discardPile := p.discardPile + p.hand)
                  && (forall j :: 0 <= j < |s.players| && j != i ==> s1.players[j] == s.players[j])
                  && (Scoring.ShouldEndSkirmish(s1.players) ==> r.state == EndSkirmish(s1).state)
                  && (!Scoring.ShouldEndSkirmish(s1.players) ==> r.state == NextTurn(s1).state)
                  && r.emitted[0] == PlayerPassed(pid)))
  {
    if pid in Ids(s.players) {
      var k :| 0 <= k < |s.players| && Ids(s.players)[k] == pid;
      assert PlayerId(s.players[k]) == pid;
    }
  }

  // ---------------------------------------------------------------- DISCARD_TO_HAND_LIMIT

  /** DISCARD_TO_HAND_LIMIT has no phase check and is not atomic: the named cards are discarded
      first, and HAND_LIMIT_EXCEEDED is returned, with the discards kept, exactly when the hand is
      still above 3 in handbuilding or above 10 in any other phase. */
  lemma DiscardToHandLimitFacts(s: GameState, pid: string, payload: Payload)
    ensures var r := DiscardToHandLimitAction(s, pid, payload);
      && (pid !in Ids(s.players) ==> r.state == s && r.error.Some? && r.error.value.code == PlayerNotInGame)
      && (pid in Ids(s.players) && payload.discardedCardIds.None? ==>
            r.state == s && r.error.Some? && r.error.value.code == InvalidMove)
      && (pid in Ids(s.players) && payload.discardedCardIds.Some? ==>
            var i := FindPlayer(s, pid).value;
            && r.state == s.(players := s.players[i := DiscardCards(s.players[i], payload.discardedCardIds.value)])
            && (r.error.Some? <==> |r.state.players[i].hand| > CardRules.EngineHandLimit(s.phase))
            && (r.error.Some? ==> r.error.value.code == HandLimitExceeded && r.emitted == [])
            && (r.error.None? ==> r.emitted == [GameUpdated]))
  {
    if pid in Ids(s.players) {
      var k :| 0 <= k < |s.players| && Ids(s.players)[k] == pid;
      assert PlayerId(s.players[k]) == pid;
    }
  }

  // ---------------------------------------------------------------- skirmish resolution

  /** Cleanup: every player's in-play cards at the ended environment go to the end of their
      discard pile and its in-play table and items are cleared (its used items stay). Only when
      the environment deck has cards is the environment replaced by the deck's first, given the
      front item of the item deck if there is one, and the prepared table moved to the new id,
      with an empty list for every player. */
  lemma CleanupFacts(s: GameState, a: nat)
    requires a < |s.environmentStates|
    ensures var t := CleanupAfterSkirmish(s, a);
      var env := s.environmentStates[a];
      && |t.players| == |s.players|
      && (forall j :: 0 <= j < |s.players| ==>
            t.players[j] == s.players[j].(discardPile := s.players[j].discardPile + SlotCards(env.cardsInPlay, s.players[j].id)))
      && |t.environmentStates| == |s.environmentStates|
      && (forall j :: 0 <= j < |s.environmentStates| && j != a ==> t.environmentStates[j] == s.environmentStates[j])
      && t.environmentStates[a].cardsInPlay == []
      && t.environmentStates[a].usedItems == env.usedItems
      && (s.environmentDeck == [] ==>
            && t.environmentStates[a] == env.(cardsInPlay := [], items := [])
            && t.preparedCards == s.preparedCards
            && t.environmentDeck == [] && t.itemDeck == s.itemDeck)
      && (s.environmentDeck != [] ==>
            var next := s.environmentDeck[0];
            && t.environmentStates[a].environment == next
            && t.environmentStates[a].items == s.itemDeck[..Min(1, |s.itemDeck|)]
            && t.itemDeck == s.itemDeck[Min(1, |s.itemDeck|)..]
            && t.environmentDeck == s.environmentDeck[1..]
            && (s.activeEnvironmentId != Some(next.id) ==>
                  next.id in t.preparedCards
                  && (forall q :: q in t.preparedCards[next.id] <==> q in Ids(s.players))
                  && AllEmptyAt(t.preparedCards, next.id))
            && (s.activeEnvironmentId.Some? ==> s.activeEnvironmentId.value !in t.preparedCards))
      && t == s.(players := t.players, environmentStates := t.environmentStates, preparedCards := t.preparedCards,
                 environmentDeck := t.environmentDeck, itemDeck := t.itemDeck)
  {
  }

  /** Cleanup leaves every player's id and win count as they were. */
  lemma CleanupKeepsWins(s: GameState, a: nat)
    requires a < |s.environmentStates|
    ensures var t := CleanupAfterSkirmish(s, a);
      && |t.players| == |s.players| && Ids(t.players) == Ids(s.players)
      && (forall j :: 0 <= j < |s.players| ==> t.players[j].skirmishesWon == s.players[j].skirmishesWon)
  {
  }

  /** Topping up: a hand below three draws from the top of the deck until it has three or the
      deck is empty; the order of hand then deck is kept. */
  lemma TopUpFacts(p: Player)
    ensures var t := TopUp(p);
      && |t.hand| == (if |p.hand| >= 3 then |p.hand| else Min(3, |p.hand| + |p.deck|))
      && t.hand[..|p.hand|] == p.hand
      && t.hand + t.deck == p.hand + p.deck
      && t == p.(hand := t.hand, deck := t.deck, hasPassed := false)
  {
    var t := TopUp(p);
    if 3 - |p.hand| > 0 && |p.deck| > 0 {
      var d := CardRules.DrawCards(p.deck, 3 - |p.hand|);
      assert d.drawnCards + d.remainingDeck == p.deck;
      assert t.hand + t.deck == p.hand + (d.drawnCards + d.remainingDeck);
    }
  }

  /** The next round: back to handbuilding with no active environment, every hand topped up,
      every pass flag cleared, and the turn passed on. */
  lemma StartNextRoundFacts(s: GameState)
    requires |s.players| > 0 && s.currentPlayerIndex >= 0
    ensures var r := StartNextRound(s);
      var t := r.state;
      && t.phase == Handbuilding && t.activeEnvironmentId == None && t.skirmishInitiatorId == None
      && |t.players| == |s.players|
      && (forall j :: 0 <= j < |s.players| ==>
            var p := s.players[j];
            && |t.players[j].hand| == (if |p.hand| >= 3 then |p.hand| else Min(3, |p.hand| + |p.deck|))
            && t.players[j] == p.(hand := t.players[j].hand, deck := t.players[j].deck, hasPassed := false))
      && t.turn == s.turn + 1
      && t.currentPlayerIndex == (s.currentPlayerIndex + 1) % |s.players|
      && r.emitted == [GameUpdated, PhaseChanged(Handbuilding)]
  {
    var t := StartNextRound(s).state;
    forall j | 0 <= j < |s.players|
      ensures var p := s.players[j];
        && |t.players[j].hand| == (if |p.hand| >= 3 then |p.hand| else Min(3, |p.hand| + |p.deck|))
        && t.players[j] == p.(hand := t.players[j].hand, deck := t.players[j].deck, hasPassed := false)
    {
      TopUpFacts(s.players[j]);
    }
  }

  /** In a valid skirmish the active environment is found. */
  lemma ActiveFound(s: GameState)
    requires Valid(s) && s.phase == Skirmish
    ensures ActiveIndex(s).Some?
  {
    var k :| 0 <= k < |s.environmentStates| && StateIds(s.environmentStates)[k] == s.activeEnvironmentId.value;
    assert EnvironmentStateId(s.environmentStates[k]) == s.activeEnvironmentId.value;
  }

  /** Crediting seat w and cleaning up: one more win for w alone, seats and ids unchanged. */
  lemma CreditedFacts(s: GameState, a: nat, w: nat)
    requires Valid(s) && a < |s.environmentStates| && w < |s.players|
    ensures var s2 := CleanupAfterSkirmish(CreditWin(s, s.players[w].id), a);
      && |s2.players| == |s.players|
      && (forall j :: 0 <= j < |s.players| ==>
            s2.players[j].skirmishesWon == s.players[j].skirmishesWon + (if j == w then 1 else 0))
      && FindPlayer(s2, s.players[w].id) == Some(w)
      && s2.targetSkirmishes == s.targetSkirmishes
      && s2.currentPlayerIndex == s.currentPlayerIndex
  {
    var id := s.players[w].id;
    FoundPlayerIsUnique(s, w);
    var s1 := CreditWin(s, id);
    assert s1.players == s.players[w := s.players[w].(skirmishesWon := s.players[w].skirmishesWon + 1)];
    var s2 := CleanupAfterSkirmish(s1, a);
    CleanupKeepsWins(s1, a);
    assert Ids(s1.players) == Ids(s.players) by {
      forall j | 0 <= j < |s.players| ensures Ids(s1.players)[j] == Ids(s.players)[j] { }
    }
    FirstIndexSameKeys(s.players, s2.players, PlayerId, id) by {
      forall j | 0 <= j < |s.players| ensures PlayerId(s.players[j]) == PlayerId(s2.players[j]) {
        assert Ids(s2.players)[j] == Ids(s.players)[j];
      }
    }
  }

  /** After cleanup the game ends when the winner has reached the target, and otherwise the next
      round starts; neither touches the win counts. */
  lemma ResolveAfterCleanup(s2: GameState, id: string, w: nat)
    requires |s2.players| > 0 && s2.currentPlayerIndex >= 0 && FindPlayer(s2, id) == Some(w)
    ensures var t := (if WonEnough(s2, id) then EndGame(s2, Some(id)) else StartNextRound(s2)).state;
      && |t.players| == |s2.players|
      && (forall j :: 0 <= j < |s2.players| ==> t.players[j].skirmishesWon == s2.players[j].skirmishesWon)
      && (t.phase == Finished <==> s2.players[w].skirmishesWon >= s2.targetSkirmishes)
      && (t.phase != Finished ==> t.phase == Handbuilding && t.activeEnvironmentId == None)
  {
    if !WonEnough(s2, id) {
      StartNextRoundFacts(s2);
    }
  }

  /** Ending a skirmish credits exactly one player, the one the scores pick, with one win; the
      game is over exactly when that player has reached the target, and otherwise the next round
      of handbuilding begins. */
  lemma EndSkirmishFacts(s: GameState)
    requires Valid(s) && s.phase == Skirmish
    ensures |s.players| > 0 && ActiveIndex(s).Some?
    ensures var a := ActiveIndex(s).value;
      var scores := Scoring.CalculateScores(s.players, s.environmentStates[a].cardsInPlay);
      var r := EndSkirmish(s);
      var t := r.state;
      && Scoring.WinnerIndex(scores).Some?
      && var w := Scoring.WinnerIndex(scores).value;
         && w < |s.players|
         && |t.players| == |s.players|
         && (forall j :: 0 <= j < |s.players| ==>
               t.players[j].skirmishesWon == s.players[j].skirmishesWon + (if j == w then 1 else 0))
         && (t.phase == Finished <==> s.players[w].skirmishesWon + 1 >= s.targetSkirmishes)
         && (t.phase != Finished ==> t.phase == Handbuilding && t.activeEnvironmentId == None)
         && r.error.None?
         && r.emitted[0] == SkirmishEnded(s.activeEnvironmentId, Scoring.MarkWinner(scores), Scoring.DetermineWinner(scores))
  {
    ActiveFound(s);
    var a := ActiveIndex(s).value;
    var scores := Scoring.CalculateScores(s.players, s.environmentStates[a].cardsInPlay);
    var w := Scoring.WinnerIndex(scores).value;
    var id := s.players[w].id;
    assert Scoring.DetermineWinner(scores).value.playerId == id;
    CreditedFacts(s, a, w);
    var s2 := CleanupAfterSkirmish(CreditWin(s, id), a);
    var rest := if WonEnough(s2, id) then EndGame(s2, Some(id)) else StartNextRound(s2);
    assert EndSkirmish(s) == Emit([SkirmishEnded(s.activeEnvironmentId, Scoring.MarkWinner(scores), Scoring.DetermineWinner(scores))], rest);
    ResolveAfterCleanup(s2, id, w);
  }

  // ---------------------------------------------------------------- construction

  /** The initial state: setup with no players, the first three environments dealt with the
      last, second-last and third-last items of the item deck, and the item deck cut by six,
      so that the three items before those dealt are in no zone at all. */
  lemma InitialStateFacts(gameId: Option<string>, freshGameId: string, maxPlayers: int, isQuickGame: bool,
                          envDeck: seq<Environment>, itemDeck: seq<Item>)
    requires |envDeck| >= 3 && |itemDeck| >= 6
    ensures var t := InitialState(gameId, freshGameId, maxPlayers, isQuickGame, envDeck, itemDeck);
      var n := |itemDeck|;
      && t.id == (if Given(gameId) then gameId.value else freshGameId)
      && t.phase == Setup && t.players == [] && t.turn == 0 && t.currentPlayerIndex == 0
      && t.maxPlayers == maxPlayers
      && t.targetSkirmishes == (if isQuickGame then 2 else 3)
      && t.activeEnvironmentId == None && t.skirmishInitiatorId == None
      && |t.environmentStates| == 3
      && (forall k :: 0 <= k < 3 ==>
            t.environmentStates[k] == EnvironmentState(envDeck[k], [itemDeck[n - 1 - k]], [], map[]))
      && t.environmentDeck == envDeck[3..]
      && |t.itemDeck| == n - 6
      && t.itemDeck + itemDeck[n - 6..n - 3] + [itemDeck[n - 3], itemDeck[n - 2], itemDeck[n - 1]] == itemDeck
      && (forall e :: e in t.preparedCards <==> e in StateIds(t.environmentStates))
      && (forall e :: e in t.preparedCards ==> t.preparedCards[e] == map[])
  {
    var n := |itemDeck|;
    assert itemDeck == itemDeck[..n - 6] + itemDeck[n - 6..n - 3] + itemDeck[n - 3..];
    assert itemDeck[n - 3..] == [itemDeck[n - 3], itemDeck[n - 2], itemDeck[n - 1]];
  }

  // ---------------------------------------------------------------- dispatch and queries

  /** An unknown player or action type is refused, and every refusal but DISCARD_TO_HAND_LIMIT's
      leaves the game exactly as it was and emits nothing. */
  lemma ProcessActionRejects(s: GameState, action: Action)
    requires Valid(s) && ProcessDefined(s, action)
    ensures var r := ProcessAction(s, action);
      && (action.playerId !in Ids(s.players) ==> r == Fail(s, PlayerNotInGame, "Player is not in this game"))
      && (action.playerId in Ids(s.players) && action.actionType.Unknown? ==> r == Fail(s, InvalidMove, "Invalid action type"))
      && (r.error.Some? && !action.actionType.DiscardToHandLimit? ==> r.state == s && r.emitted == [])
  {
    var pid := action.playerId;
    if pid in Ids(s.players) {
      var k :| 0 <= k < |s.players| && Ids(s.players)[k] == pid;
      assert PlayerId(s.players[k]) == pid;
      assert FindPlayer(s, pid).Some?;
      var t := action.actionType;
      var r := ProcessAction(s, action);
      if t.ReadyUp? {
        assert r == SetPlayerReady(s, pid, true);
      } else if t.PrepareCard? {
        assert r.error.Some? ==> r.state == s && r.emitted == [] by {
          assert r == PrepareCardAction(s, pid, action.payload);
          PrepareCardRejects(s, pid, action.payload);
        }
      } else if t.InitiateSkirmish? {
        assert r.error.Some? ==> r.state == s && r.emitted == [] by {
          assert r == InitiateSkirmishAction(s, pid, action.payload);
          InitiateSkirmishFacts(s, pid, action.payload);
        }
      } else if t.PlayCard? {
        assert r.error.Some? ==> r.state == s && r.emitted == [] by {
          assert r == PlayCardAction(s, pid, action.payload);
          PlayCardRejects(s, pid, action.payload);
        }
      } else if t.TakeItem? {
        assert r.error.Some? ==> r.state == s && r.emitted == [] by {
          assert r == TakeItemAction(s, pid, action.payload);
          TakeItemRejects(s, pid, action.payload);
        }
      } else if t.Pass? {
        assert r.error.Some? ==> r.state == s && r.emitted == [] by {
          assert r == PassAction(s, pid);
          PassFacts(s, pid);
        }
      }
    } else {
      assert FindPlayer(s, pid).None?;
    }
  }

  /** `canPlayerAct`: a playing phase and the player's turn. */
  lemma CanPlayerActFacts(s: GameState, pid: string)
    requires Valid(s)
    ensures CanPlayerAct(s, pid) <==>
      (s.phase == Handbuilding || s.phase == Skirmish) && |s.players| > 0 && s.players[s.currentPlayerIndex].id == pid
    ensures CanPlayerAct(s, pid) ==> pid in Ids(s.players)
  {
    if CanPlayerAct(s, pid) {
      assert Ids(s.players)[s.currentPlayerIndex] == pid;
    }
  }
}
