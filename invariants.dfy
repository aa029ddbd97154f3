/** The state invariant `Valid` holds initially and is kept by every operation. */
module Invariants {
  import opened GameTypes
  import opened Zones
  import opened Steps
  import CardRules
  import Scoring

  // ---------------------------------------------------------------- list facts

  lemma IdsRemoveAt(ps: seq<Player>, i: nat)
    requires i < |ps| && Distinct(Ids(ps))
    ensures Distinct(Ids(RemoveAt(ps, i)))
    ensures forall q :: q in Ids(RemoveAt(ps, i)) <==> q in Ids(ps) && q != ps[i].id
  {
    var r := RemoveAt(ps, i);
    forall x, y | 0 <= x < y < |r| ensures Ids(r)[x] != Ids(r)[y] {
      var x' := if x < i then x else x + 1;
      var y' := if y < i then y else y + 1;
      assert Ids(r)[x] == Ids(ps)[x'] && Ids(r)[y] == Ids(ps)[y'];
    }
    forall q | q in Ids(ps) && q != ps[i].id ensures q in Ids(r) {
      var k :| 0 <= k < |ps| && Ids(ps)[k] == q;
      if k < i {
        assert Ids(r)[k] == q;
      } else {
        assert Ids(r)[k - 1] == q;
      }
    }
    forall q | q in Ids(r) ensures q in Ids(ps) && q != ps[i].id {
      var k :| 0 <= k < |r| && Ids(r)[k] == q;
      var k' := if k < i then k else k + 1;
      assert Ids(ps)[k'] == q;
    }
  }

  lemma IdsAppend(ps: seq<Player>, p: Player)
    requires Distinct(Ids(ps)) && p.id !in Ids(ps)
    ensures Distinct(Ids(ps + [p]))
    ensures forall q :: q in Ids(ps + [p]) <==> q in Ids(ps) || q == p.id
  {
    assert Ids(ps + [p]) == Ids(ps) + [p.id];
  }

  /** Playing a card keeps one slot per player and adds the card to the end of the player's slot. */
  lemma AddToSlotFacts(slots: seq<Slot>, q: string, c: Card)
    requires Distinct(SlotIds(slots))
    ensures Distinct(SlotIds(AddToSlot(slots, q, c)))
    ensures forall r :: SlotCards(AddToSlot(slots, q, c), r) == SlotCards(slots, r) + (if r == q then [c] else [])
  {
    var t := AddToSlot(slots, q, c);
    match FirstIndex(slots, SlotId, q)
    case None =>
      assert SlotIds(t) == SlotIds(slots) + [q];
      forall r ensures SlotCards(t, r) == SlotCards(slots, r) + (if r == q then [c] else []) {
        FirstIndexAppend(slots, Slot(q, [c]), SlotId, r);
      }
    case Some(i) =>
      assert SlotIds(t) == SlotIds(slots);
      forall r ensures SlotCards(t, r) == SlotCards(slots, r) + (if r == q then [c] else []) {
        FirstIndexSameKeys(slots, t, SlotId, r);
      }
  }

  /** Moving the deck's first environment into position a keeps all environment ids distinct. */
  lemma DistinctAfterReplace(envs: seq<EnvironmentState>, deck: seq<Environment>, a: nat, env1: EnvironmentState)
    requires a < |envs| && |deck| > 0 && env1.environment == deck[0]
    requires Distinct(StateIds(envs) + DeckIds(deck))
    ensures Distinct(StateIds(envs[a := env1]) + DeckIds(deck[1..]))
  {
    var L := StateIds(envs) + DeckIds(deck);
    var N := StateIds(envs[a := env1]) + DeckIds(deck[1..]);
    var m := |envs|;
    forall x, y | 0 <= x < y < |N| ensures N[x] != N[y] {
      var x' := if x == a then m else if x < m then x else x + 1;
      var y' := if y == a then m else if y < m then y else y + 1;
      assert N[x] == L[x'] && N[y] == L[y'];
    }
  }

  // ---------------------------------------------------------------- hand limits

  /** In every valid state each hand passes `validateHandLimit`: at most three cards while
      handbuilding and at most ten in a skirmish; no hand before the game starts; and in a
      skirmish a player who has passed holds no cards. */
  lemma ValidHandsWithinLimit(s: GameState)
    requires Valid(s)
    ensures forall i :: 0 <= i < |s.players| ==> CardRules.ValidateHandLimit(s.players[i].hand, s.phase)
    ensures s.phase == Handbuilding ==> forall i :: 0 <= i < |s.players| ==> |s.players[i].hand| <= 3
    ensures s.phase == Skirmish ==> forall i :: 0 <= i < |s.players| ==>
      |s.players[i].hand| <= 10 && (s.players[i].hasPassed ==> s.players[i].hand == [])
    ensures s.phase == Setup ==> forall i :: 0 <= i < |s.players| ==> s.players[i].hand == []
  {
    forall i | 0 <= i < |s.players| ensures HandFits(s.phase, s.players[i]) {
    }
  }

  // ---------------------------------------------------------------- single steps

  lemma ValidWithPlayers(s: GameState, ps: seq<Player>)
    requires Valid(s) && |ps| == |s.players| && Ids(ps) == Ids(s.players)
    requires forall i :: 0 <= i < |ps| ==> HandFits(s.phase, ps[i])
    ensures Valid(s.(players := ps))
  {
  }

  lemma SetPlayerValid(s: GameState, i: nat, p: Player)
    requires Valid(s) && i < |s.players| && p.id == s.players[i].id
    requires HandFits(s.phase, p)
    ensures Valid(SetPlayer(s, i, p))
  {
    assert Ids(s.players[i := p]) == Ids(s.players);
    ValidWithPlayers(s, s.players[i := p]);
  }

  /** A hand that only loses cards, with the pass flag unchanged, still fits its phase. */
  lemma HandShrinks(phase: Phase, p: Player, p1: Player)
    requires HandFits(phase, p) && |p1.hand| <= |p.hand| && p1.hasPassed == p.hasPassed
    ensures HandFits(phase, p1)
  {
  }

  /** The next player is the following one in seating order, cyclically. */
  lemma NextTurnValid(s: GameState)
    requires Valid(s) && |s.players| > 0
    ensures Valid(NextTurn(s).state)
    ensures NextTurn(s).state.currentPlayerIndex == (s.currentPlayerIndex + 1) % |s.players|
  {
  }

  lemma CheckGameStartValid(s: GameState)
    requires Valid(s)
    ensures Valid(CheckGameStart(s).state)
  {
    if s.phase == Setup && |s.players| >= 2 && AllReady(s.players) {
      var ps := s.players;
      var dealt := seq(|ps|, i requires 0 <= i < |ps| => DealOpening(ps[i]));
      assert Ids(dealt) == Ids(ps);
      assert forall i :: 0 <= i < |dealt| ==> |dealt[i].hand| <= CardRules.HANDBUILDING_HAND_LIMIT;
    }
  }

  lemma AddPlayerValid(s: GameState, pid: string, name: string, deck: seq<Card>)
    requires Valid(s)
    ensures Valid(AddPlayer(s, pid, name, deck).state)
  {
    if |s.players| < s.maxPlayers && FindPlayer(s, pid).None? {
      var p := NewPlayer(s, pid, name, deck);
      var s1 := s.(players := s.players + [p],
                   preparedCards := Steps.SeatPrepared(s.preparedCards, pid));
      assert pid !in Ids(s.players);
      JoinedValid(s, pid, name, deck);
      CheckGameStartValid(s1);
    }
  }

  /** The newcomer sits last with an empty hand and an empty list at every environment. */
  lemma JoinedValid(s: GameState, pid: string, name: string, deck: seq<Card>)
    requires Valid(s) && pid !in Ids(s.players)
    ensures Valid(s.(players := s.players + [NewPlayer(s, pid, name, deck)],
                     preparedCards := Steps.SeatPrepared(s.preparedCards, pid)))
  {
    var p := NewPlayer(s, pid, name, deck);
    var s1 := s.(players := s.players + [p], preparedCards := Steps.SeatPrepared(s.preparedCards, pid));
    IdsAppend(s.players, p);
    forall k | 0 <= k < |s1.players| ensures HandFits(s1.phase, s1.players[k]) {
      if k < |s.players| {
        assert s1.players[k] == s.players[k];
      }
    }
    assert PreparedKeysMatch(s1);
  }

  lemma RemovePlayerValid(s: GameState, pid: string)
    requires Valid(s)
    ensures Valid(RemovePlayer(s, pid).state)
  {
    match FindPlayer(s, pid)
    case None =>
    case Some(i) =>
      assert s.players[i].id == pid;
      var cpi := if s.currentPlayerIndex >= i && s.currentPlayerIndex > 0 then s.currentPlayerIndex - 1
                 else s.currentPlayerIndex;
      var s1 := s.(players := RemoveAt(s.players, i), currentPlayerIndex := cpi,
                   preparedCards := UnseatPrepared(s.preparedCards, pid));
      var t := if |s1.players| < 2 && s.phase != Setup then s1.(phase := Finished) else s1;
      assert RemovePlayer(s, pid).state == t;
      RemovedValid(s, i, t);
  }

  /** The state after seat i is removed: the seating, the prepared tables and the index change,
      and the phase either stays or becomes finished. */
  lemma RemovedValid(s: GameState, i: nat, t: GameState)
    requires Valid(s) && i < |s.players|
    requires t.players == RemoveAt(s.players, i)
    requires t.environmentStates == s.environmentStates && t.environmentDeck == s.environmentDeck
    requires t.preparedCards == UnseatPrepared(s.preparedCards, s.players[i].id)
    requires t.phase == s.phase || t.phase == Finished
    requires |t.players| < 2 && s.phase != Setup ==> t.phase == Finished
    requires t.activeEnvironmentId == s.activeEnvironmentId
    requires t.currentPlayerIndex ==
      (if s.currentPlayerIndex >= i && s.currentPlayerIndex > 0 then s.currentPlayerIndex - 1 else s.currentPlayerIndex)
    ensures Valid(t)
  {
    IdsRemoveAt(s.players, i);
    assert PreparedKeysMatch(t);
    forall k | 0 <= k < |t.players| ensures HandFits(t.phase, t.players[k]) {
      assert t.players[k] == s.players[if k < i then k else k + 1];
    }
    assert t.phase == Skirmish ==> AllEmptyAt(t.preparedCards, t.activeEnvironmentId.value);
  }

  lemma SetPlayerReadyValid(s: GameState, pid: string, ready: bool)
    requires Valid(s)
    ensures Valid(SetPlayerReady(s, pid, ready).state)
  {
    match FindPlayer(s, pid)
    case None =>
    case Some(i) =>
      assert HandFits(s.phase, s.players[i]);
      SetPlayerValid(s, i, s.players[i].(isReady := ready));
      CheckGameStartValid(SetPlayer(s, i, s.players[i].(isReady := ready)));
  }

  lemma SetPlayerConnectionValid(s: GameState, pid: string, connected: bool)
    requires Valid(s)
    ensures Valid(SetPlayerConnection(s, pid, connected).state)
  {
    match FindPlayer(s, pid)
    case None =>
    case Some(i) =>
      assert HandFits(s.phase, s.players[i]);
      SetPlayerValid(s, i, s.players[i].(isConnected := connected));
  }

  // ---------------------------------------------------------------- actions

  /** Changing prepared lists without adding or removing a key keeps the invariant outside a skirmish. */
  lemma ValidWithPrepared(s: GameState, prep: map<string, map<string, seq<Card>>>)
    requires Valid(s) && s.phase != Skirmish
    requires forall e :: e in prep <==> e in s.preparedCards
    requires forall e :: e in prep ==> forall q :: q in prep[e] <==> q in s.preparedCards[e]
    ensures Valid(s.(preparedCards := prep))
  {
  }

  lemma PreparedValid(s: GameState, i: nat, ci: nat, e: string)
    requires Valid(s) && s.phase == Handbuilding && i < |s.players| && ci < |s.players[i].hand|
    requires e in StateIds(s.environmentStates)
    ensures Valid(Prepared(s, i, ci, e))
  {
    var p := s.players[i];
    var s1 := SetPlayer(s, i, ReplaceFromDeck(p, ci));
    assert HandFits(s.phase, p);
    HandShrinks(s.phase, p, ReplaceFromDeck(p, ci));
    SetPlayerValid(s, i, ReplaceFromDeck(p, ci));
    assert Ids(s.players)[i] == p.id;
    assert e in s1.preparedCards && p.id in s1.preparedCards[e];
    ValidWithPrepared(s1, AppendPrepared(s1.preparedCards, e, p.id, p.hand[ci]));
  }

  lemma PrepareCardValid(s: GameState, pid: string, payload: Payload)
    requires Valid(s)
    ensures Valid(PrepareCardAction(s, pid, payload).state)
  {
    if PrepareCardAction(s, pid, payload).error.None? {
      var i: nat := s.currentPlayerIndex;
      var ci := FirstIndex(s.players[i].hand, CardId, payload.cardId.value).value;
      var e := payload.environmentId.value;
      var k := FirstIndex(s.environmentStates, EnvironmentStateId, e).value;
      assert StateIds(s.environmentStates)[k] == e;
      PreparedValid(s, i, ci, e);
      NextTurnValid(Prepared(s, i, ci, e));
    }
  }

  /** Entering the skirmish phase keeps the invariant when only the players' zones, the
      prepared lists' contents and the turn fields change. */
  lemma SkirmishEntryValid(s: GameState, t: GameState, e: string)
    requires Valid(s) && s.phase == Handbuilding && e in s.preparedCards
    requires t.environmentStates == s.environmentStates && t.environmentDeck == s.environmentDeck
    requires Ids(t.players) == Ids(s.players) && |t.players| == |s.players|
    requires 0 <= t.currentPlayerIndex < |t.players|
    requires t.phase == Skirmish && t.activeEnvironmentId == Some(e)
    requires t.preparedCards.Keys == s.preparedCards.Keys
    requires forall x :: x in t.preparedCards ==> t.preparedCards[x].Keys == s.preparedCards[x].Keys
    requires AllEmptyAt(t.preparedCards, e)
    requires forall i :: 0 <= i < |t.players| ==> HandFits(Skirmish, t.players[i])
    ensures Valid(t)
  {
  }

  /** What StartSkirmish changes, stated without the invariant. */
  lemma StartSkirmishShape(s: GameState, e: string, initiator: string)
    requires e in s.preparedCards && initiator in Ids(s.players)
    ensures var t := StartSkirmish(s, e, initiator).state;
      && t.environmentStates == s.environmentStates && t.environmentDeck == s.environmentDeck
      && Ids(t.players) == Ids(s.players) && |t.players| == |s.players|
      && 0 <= t.currentPlayerIndex < |t.players|
      && t.phase == Skirmish && t.activeEnvironmentId == Some(e)
      && t.preparedCards.Keys == s.preparedCards.Keys
      && (forall x :: x in t.preparedCards ==> t.preparedCards[x].Keys == s.preparedCards[x].Keys)
      && AllEmptyAt(t.preparedCards, e)
      && (forall i :: 0 <= i < |t.players| ==> HandFits(Skirmish, t.players[i]))
  {
    var prepared := s.preparedCards[e];
    var ps := PickUpAll(s.players, prepared);
    PickUpAllFits(s.players, prepared);
    assert initiator in Ids(ps);
    var k :| 0 <= k < |ps| && Ids(ps)[k] == initiator;
    assert PlayerId(ps[k]) == initiator;
    assert FirstIndex(ps, PlayerId, initiator).Some?;
  }

  /** Picking up the prepared cards leaves every hand within the skirmish limit and unpassed. */
  lemma PickUpAllFits(players: seq<Player>, prepared: map<string, seq<Card>>)
    ensures var ps := PickUpAll(players, prepared);
      forall i :: 0 <= i < |ps| ==> HandFits(Skirmish, ps[i])
  {
    var ps := PickUpAll(players, prepared);
    forall i | 0 <= i < |ps| ensures HandFits(Skirmish, ps[i]) {
      assert !ps[i].hasPassed && |ps[i].hand| <= CardRules.SKIRMISH_HAND_LIMIT;
    }
  }

  lemma StartSkirmishValid(s: GameState, e: string, initiator: string)
    requires Valid(s) && s.phase == Handbuilding && e in s.preparedCards && initiator in Ids(s.players)
    ensures Valid(StartSkirmish(s, e, initiator).state)
    ensures StartSkirmish(s, e, initiator).state.currentPlayerIndex >= 0
  {
    StartSkirmishShape(s, e, initiator);
    SkirmishEntryValid(s, StartSkirmish(s, e, initiator).state, e);
  }

  lemma InitiateSkirmishValid(s: GameState, pid: string, payload: Payload)
    requires Valid(s) && InitiateDefined(s, payload) && pid in Ids(s.players)
    ensures Valid(InitiateSkirmishAction(s, pid, payload).state)
  {
    if s.phase == Handbuilding && Given(payload.environmentId) {
      StartSkirmishValid(s, payload.environmentId.value, pid);
    }
  }

  lemma PlayedValid(s: GameState, i: nat, ci: nat, a: nat)
    requires Valid(s) && s.phase != Setup && i < |s.players| && ci < |s.players[i].hand| && a < |s.environmentStates|
    ensures Valid(Played(s, i, ci, a))
  {
    var p := s.players[i];
    var env := s.environmentStates[a];
    AddToSlotFacts(env.cardsInPlay, p.id, p.hand[ci]);
    HandShrinks(s.phase, p, p.(hand := RemoveAt(p.hand, ci)));
    SetPlayerValid(s, i, p.(hand := RemoveAt(p.hand, ci)));
    var t := Played(s, i, ci, a);
    assert StateIds(t.environmentStates) == StateIds(s.environmentStates);
  }

  lemma PlayCardValid(s: GameState, pid: string, payload: Payload)
    requires Valid(s)
    ensures Valid(PlayCardAction(s, pid, payload).state)
  {
    if PlayCardAction(s, pid, payload).error.None? {
      var i: nat := s.currentPlayerIndex;
      var ci := FirstIndex(s.players[i].hand, CardId, payload.cardId.value).value;
      var a := ActiveIndex(s).value;
      PlayedValid(s, i, ci, a);
      NextTurnValid(Played(s, i, ci, a));
    }
  }

  lemma TakenValid(s: GameState, i: nat, a: nat, ii: nat, ids: seq<string>)
    requires Valid(s) && s.phase != Setup && i < |s.players| && a < |s.environmentStates|
    requires ii < |s.environmentStates[a].items|
    ensures Valid(Taken(s, i, a, ii, ids))
  {
    HandShrinks(s.phase, s.players[i], DiscardCards(s.players[i], ids));
    SetPlayerValid(s, i, DiscardCards(s.players[i], ids));
    var t := Taken(s, i, a, ii, ids);
    assert StateIds(t.environmentStates) == StateIds(s.environmentStates);
  }

  lemma TakeItemValid(s: GameState, pid: string, payload: Payload)
    requires Valid(s)
    ensures Valid(TakeItemAction(s, pid, payload).state)
  {
    if TakeItemAction(s, pid, payload).error.None? {
      var i: nat := s.currentPlayerIndex;
      var a := ActiveIndex(s).value;
      var env := s.environmentStates[a];
      var ii := FirstIndex(env.items, ItemId, payload.itemId.value).value;
      var ids := if CostOf(env.items[ii]) > 0 then payload.discardedCardIds.value else [];
      TakenValid(s, i, a, ii, ids);
      NextTurnValid(Taken(s, i, a, ii, ids));
    }
  }

  lemma DiscardToHandLimitValid(s: GameState, pid: string, payload: Payload)
    requires Valid(s)
    ensures Valid(DiscardToHandLimitAction(s, pid, payload).state)
  {
    match FindPlayer(s, pid)
    case None =>
    case Some(i) =>
      if payload.discardedCardIds.Some? {
        HandShrinks(s.phase, s.players[i], DiscardCards(s.players[i], payload.discardedCardIds.value));
        SetPlayerValid(s, i, DiscardCards(s.players[i], payload.discardedCardIds.value));
      }
  }

  lemma PassValid(s: GameState, pid: string)
    requires Valid(s)
    ensures Valid(PassAction(s, pid).state)
  {
    if s.phase == Skirmish && FindPlayer(s, pid).Some? {
      var i := FindPlayer(s, pid).value;
      var p := s.players[i];
      if !p.hasPassed {
        SetPlayerValid(s, i, p.(hasPassed := true, discardPile := p.discardPile + p.hand, hand := []));
        var s1 := Passed(s, i);
        if Scoring.ShouldEndSkirmish(s1.players) {
          EndSkirmishValid(s1);
        } else {
          NextTurnValid(s1);
        }
      }
    }
  }

  // ---------------------------------------------------------------- skirmish resolution

  /** Re-keying the prepared table from the environment at position a to a new id matches the
      environment ids after the replacement. */
  lemma RekeyedKeys(sids: seq<string>, a: nat, newId: string,
                    prep: map<string, map<string, seq<Card>>>, m: map<string, seq<Card>>,
                    rekeyed: map<string, map<string, seq<Card>>>, replaced: seq<string>)
    requires a < |sids| && Distinct(sids) && newId !in sids
    requires forall e :: e in prep <==> e in sids
    requires rekeyed == prep[newId := m] - {sids[a]} && replaced == sids[a := newId]
    ensures forall e :: e in rekeyed <==> e in replaced
  {
    forall e | e in sids[a := newId] && e != newId ensures e in prep && e != sids[a] {
      var j :| 0 <= j < |sids| && sids[a := newId][j] == e;
      assert j != a && sids[j] == e;
    }
    forall e | e in prep && e != sids[a] ensures e in sids[a := newId] {
      var j :| 0 <= j < |sids| && sids[j] == e;
      assert j != a && sids[a := newId][j] == e;
    }
    assert sids[a := newId][a] == newId;
  }

  lemma DistinctSplit(xs: seq<string>, ys: seq<string>)
    requires Distinct(xs + ys)
    ensures Distinct(xs)
    ensures forall k :: 0 <= k < |ys| ==> ys[k] !in xs
  {
    forall i, j | 0 <= i < j < |xs| ensures xs[i] != xs[j] {
      assert (xs + ys)[i] == xs[i] && (xs + ys)[j] == xs[j];
    }
    forall k | 0 <= k < |ys| ensures ys[k] !in xs {
      forall i | 0 <= i < |xs| ensures xs[i] != ys[k] {
        assert (xs + ys)[i] == xs[i] && (xs + ys)[|xs| + k] == ys[k];
      }
    }
  }

  /** After cleaning up, the state is valid once the phase leaves the skirmish. */
  lemma CleanupValid(s: GameState, a: nat)
    requires Valid(s) && s.phase == Skirmish && ActiveIndex(s) == Some(a)
    ensures var t := CleanupAfterSkirmish(s, a);
      Valid(t.(phase := Finished)) && Ids(t.players) == Ids(s.players) && t.currentPlayerIndex == s.currentPlayerIndex
  {
    if |s.environmentDeck| == 0 {
      var t := CleanupAfterSkirmish(s, a);
      assert StateIds(t.environmentStates) == StateIds(s.environmentStates);
      assert forall k :: 0 <= k < |t.players| ==> HandFits(Finished, t.players[k]);
    } else {
      CleanupReplaceValid(s, a);
    }
  }

  lemma CleanupReplaceValid(s: GameState, a: nat)
    requires Valid(s) && s.phase == Skirmish && ActiveIndex(s) == Some(a) && |s.environmentDeck| > 0
    ensures var t := CleanupAfterSkirmish(s, a);
      Valid(t.(phase := Finished)) && Ids(t.players) == Ids(s.players) && t.currentPlayerIndex == s.currentPlayerIndex
  {
    var t := CleanupAfterSkirmish(s, a);
    var env := s.environmentStates[a];
    var next := s.environmentDeck[0];
    var taken := if |s.itemDeck| > 0 then [s.itemDeck[0]] else [];
    var env1 := env.(cardsInPlay := [], items := []).(environment := next, items := taken);
    var m := EmptyLists(Ids(t.players));
    assert t.environmentStates == s.environmentStates[a := env1];
    assert t.preparedCards == s.preparedCards[next.id := m] - {s.activeEnvironmentId.value};
    ReplacedValid(s, t.(phase := Finished), a, env1, m);
  }

  /** The facts about a replacing cleanup that the invariant needs, stated on any state u. */
  lemma ReplacedValid(s: GameState, u: GameState, a: nat, env1: EnvironmentState, m: map<string, seq<Card>>)
    requires Valid(s) && s.phase == Skirmish && ActiveIndex(s) == Some(a) && |s.environmentDeck| > 0
    requires u.phase == Finished && |u.players| == |s.players| && Ids(u.players) == Ids(s.players)
    requires u.currentPlayerIndex == s.currentPlayerIndex
    requires env1.environment == s.environmentDeck[0] && env1.cardsInPlay == []
    requires u.environmentStates == s.environmentStates[a := env1]
    requires u.environmentDeck == s.environmentDeck[1..]
    requires forall q :: q in m <==> q in Ids(s.players)
    requires u.preparedCards == s.preparedCards[env1.environment.id := m] - {s.activeEnvironmentId.value}
    ensures Valid(u)
  {
    var sids := StateIds(s.environmentStates);
    var nid := env1.environment.id;
    assert forall k :: 0 <= k < |u.players| ==> HandFits(u.phase, u.players[k]);
    assert Distinct(StateIds(u.environmentStates) + DeckIds(u.environmentDeck)) by {
      DistinctAfterReplace(s.environmentStates, s.environmentDeck, a, env1);
    }
    assert forall e :: e in u.preparedCards <==> e in StateIds(u.environmentStates) by {
      assert sids[a] == s.activeEnvironmentId.value;
      DistinctSplit(sids, DeckIds(s.environmentDeck));
      assert DeckIds(s.environmentDeck)[0] == nid;
      assert StateIds(u.environmentStates) == sids[a := nid];
      RekeyedKeys(sids, a, nid, s.preparedCards, m, u.preparedCards, StateIds(u.environmentStates));
    }
    assert forall e :: e in u.preparedCards ==> forall q :: q in u.preparedCards[e] <==> q in Ids(u.players) by {
      forall e | e in u.preparedCards ensures forall q :: q in u.preparedCards[e] <==> q in Ids(u.players) {
        if e != nid {
          assert u.preparedCards[e] == s.preparedCards[e];
        }
      }
    }
    assert forall i :: 0 <= i < |u.environmentStates| ==> Distinct(SlotIds(u.environmentStates[i].cardsInPlay)) by {
      forall i | 0 <= i < |u.environmentStates| ensures Distinct(SlotIds(u.environmentStates[i].cardsInPlay)) {
        if i != a {
          assert u.environmentStates[i] == s.environmentStates[i];
        }
      }
    }
  }

  lemma CreditWinValid(s: GameState, pid: string)
    requires Valid(s)
    ensures var t := CreditWin(s, pid);
      Valid(t) && t == s.(players := t.players) && Ids(t.players) == Ids(s.players)
    ensures var t := CreditWin(s, pid);
      forall i :: 0 <= i < |t.players| ==> t.players[i].hand == s.players[i].hand
  {
    match FindPlayer(s, pid)
    case None =>
    case Some(j) =>
      assert HandFits(s.phase, s.players[j]);
      SetPlayerValid(s, j, s.players[j].(skirmishesWon := s.players[j].skirmishesWon + 1));
      assert Ids(CreditWin(s, pid).players) == Ids(s.players);
  }

  /** A skirmish ends only when every player has passed or has an empty hand, so every hand is
      empty then, and the next round's top-up leaves at most three cards in each. */
  lemma EndSkirmishValid(s: GameState)
    requires Valid(s) && s.phase == Skirmish && |s.players| > 0 && Scoring.ShouldEndSkirmish(s.players)
    ensures Valid(EndSkirmish(s).state)
  {
    forall i | 0 <= i < |s.players| ensures s.players[i].hand == [] {
      assert HandFits(s.phase, s.players[i]);
    }
    match ActiveIndex(s)
    case None =>
    case Some(a) =>
      var scores := Scoring.CalculateScores(s.players, s.environmentStates[a].cardsInPlay);
      var winner := Scoring.DetermineWinner(scores);
      var s1 := if winner.Some? then CreditWin(s, winner.value.playerId) else s;
      if winner.Some? {
        CreditWinValid(s, winner.value.playerId);
      }
      assert ActiveIndex(s1) == Some(a);
      CleanupValid(s1, a);
      var s2 := CleanupAfterSkirmish(s1, a);
      CleanupKeepsHands(s1, a);
      if winner.Some? && WonEnough(s2, winner.value.playerId) {
        assert EndSkirmish(s).state == s2.(phase := Finished);
      } else {
        StartNextRoundValid(s2);
        assert EndSkirmish(s).state == StartNextRound(s2).state;
      }
  }

  /** Cleanup moves in-play cards to discard piles and leaves every hand as it was. */
  lemma CleanupKeepsHands(s: GameState, a: nat)
    requires a < |s.environmentStates|
    ensures var t := CleanupAfterSkirmish(s, a);
      |t.players| == |s.players| && forall i :: 0 <= i < |t.players| ==> t.players[i].hand == s.players[i].hand
  {
  }

  lemma StartNextRoundValid(s: GameState)
    requires Valid(s.(phase := Finished)) && |s.players| >= 2
    requires forall i :: 0 <= i < |s.players| ==> |s.players[i].hand| <= CardRules.HANDBUILDING_HAND_LIMIT
    ensures Valid(StartNextRound(s).state)
  {
    var s1 := s.(phase := Handbuilding, activeEnvironmentId := None, skirmishInitiatorId := None,
                 players := TopUpAll(s.players));
    assert forall i :: 0 <= i < |s1.players| ==> |s1.players[i].hand| <= CardRules.HANDBUILDING_HAND_LIMIT;
    assert Valid(s1);
    NextTurnValid(s1);
  }

  // ---------------------------------------------------------------- whole operations

  lemma InitialStateValid(gameId: Option<string>, freshGameId: string, maxPlayers: int, isQuickGame: bool,
                          envDeck: seq<Environment>, itemDeck: seq<Item>)
    requires |envDeck| >= 3 && |itemDeck| >= 6 && Distinct(DeckIds(envDeck))
    ensures Valid(InitialState(gameId, freshGameId, maxPlayers, isQuickGame, envDeck, itemDeck))
  {
    var s := InitialState(gameId, freshGameId, maxPlayers, isQuickGame, envDeck, itemDeck);
    assert StateIds(s.environmentStates) + DeckIds(s.environmentDeck) == DeckIds(envDeck);
  }

  /** Every action keeps the invariant, whether it succeeds or fails. */
  lemma ProcessActionValid(s: GameState, action: Action)
    requires Valid(s) && ProcessDefined(s, action)
    ensures Valid(ProcessAction(s, action).state)
  {
    var pid := action.playerId;
    if FindPlayer(s, pid).Some? {
      var t := action.actionType;
      if t.ReadyUp? {
        SetPlayerReadyValid(s, pid, true);
      } else if t.PrepareCard? {
        PrepareCardValid(s, pid, action.payload);
      } else if t.InitiateSkirmish? {
        var i := FindPlayer(s, pid).value;
        assert Ids(s.players)[i] == pid;
        InitiateSkirmishValid(s, pid, action.payload);
      } else if t.PlayCard? {
        PlayCardValid(s, pid, action.payload);
      } else if t.TakeItem? {
        TakeItemValid(s, pid, action.payload);
      } else if t.Pass? {
        PassValid(s, pid);
      } else if t.DiscardToHandLimit? {
        DiscardToHandLimitValid(s, pid, action.payload);
      }
    }
  }
}
