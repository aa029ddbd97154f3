/** No operation creates or destroys a card of a player who stays in the game: every card
    only moves between the player's hand, deck, discard pile, prepared lists and in-play
    lists. A player who leaves takes nothing of the remaining players' cards with them. */
module Conservation {
  import opened GameTypes
  import opened Zones
  import opened Steps
  import opened Invariants
  import CardRules
  import Scoring

  // ---------------------------------------------------------------- per-player updates

  lemma OwnReplaceFromDeck(p: Player, ci: nat)
    requires ci < |p.hand|
    ensures Own(ReplaceFromDeck(p, ci)) + multiset{p.hand[ci]} == Own(p)
  {
    var p1 := p.(hand := RemoveAt(p.hand, ci));
    if |p1.deck| > 0 {
      var d := CardRules.DrawCards(p1.deck, 1);
      assert multiset(d.drawnCards) + multiset(d.remainingDeck) == multiset(p1.deck) by {
        assert d.drawnCards + d.remainingDeck == p1.deck;
      }
    }
  }

  lemma OwnPickUp(p: Player, prepared: seq<Card>)
    ensures Own(PickUp(p, prepared)) == Own(p) + multiset(prepared)
  {
    var h := p.hand + prepared;
    if |h| > CardRules.SKIRMISH_HAND_LIMIT {
      assert h == h[..CardRules.SKIRMISH_HAND_LIMIT] + h[CardRules.SKIRMISH_HAND_LIMIT..];
    }
  }

  lemma OwnTopUp(p: Player)
    ensures Own(TopUp(p)) == Own(p)
  {
    var need := 3 - |p.hand|;
    if need > 0 && |p.deck| > 0 {
      var d := CardRules.DrawCards(p.deck, need);
      assert d.drawnCards + d.remainingDeck == p.deck;
    }
  }

  /** Dealing the opening hand loses nothing, given that the hand was empty. */
  lemma OwnDealOpening(p: Player)
    requires p.hand == []
    ensures Own(DealOpening(p)) == Own(p)
  {
    var d := CardRules.DrawCards(p.deck, 3);
    assert d.drawnCards + d.remainingDeck == p.deck;
  }

  lemma OwnDiscardCards(p: Player, ids: seq<string>)
    ensures Own(DiscardCards(p, ids)) == Own(p)
  {
    var d := DiscardByIds(p.hand, p.discardPile, ids);
    forall o ensures Own(DiscardCards(p, ids))[o] == Own(p)[o] {
      assert (multiset(d.hand) + multiset(d.discard))[o] == (multiset(p.hand) + multiset(p.discardPile))[o];
    }
  }

  // ---------------------------------------------------------------- multiset bookkeeping

  lemma Lose(t: multiset<Card>, s: multiset<Card>, a: multiset<Card>, a': multiset<Card>, x: multiset<Card>)
    requires t + a == s + a' && a' + x == a
    ensures t + x == s
  {
    forall o ensures (t + x)[o] == s[o] {
      assert (t + a)[o] == (s + a')[o] && (a' + x)[o] == a[o];
    }
  }

  lemma Gain(t: multiset<Card>, s: multiset<Card>, b: multiset<Card>, b': multiset<Card>, x: multiset<Card>)
    requires t + b == s + b' && b' == b + x
    ensures t == s + x
  {
    forall o ensures t[o] == (s + x)[o] {
      assert (t + b)[o] == (s + b')[o];
    }
  }

  lemma Balance(a': multiset<Card>, a: multiset<Card>, b': multiset<Card>, b: multiset<Card>, x: multiset<Card>)
    requires (a' + x == a && b' == b + x) || (a' == a + x && b' + x == b)
    ensures a' + b' == a + b
  {
    forall o ensures (a' + b')[o] == (a + b)[o] {
      if a' + x == a && b' == b + x {
        assert (a' + x)[o] == a[o];
      } else {
        assert (b' + x)[o] == b[o];
      }
    }
  }

  // ---------------------------------------------------------------- where holdings change

  /** A state whose players changed, each keeping its id and what it owns, holds the same. */
  lemma PlayersOnly(s: GameState, ps: seq<Player>)
    requires |ps| == |s.players|
    requires forall i :: 0 <= i < |ps| ==> ps[i].id == s.players[i].id && Own(ps[i]) == Own(s.players[i])
    ensures forall q :: Holdings(s.(players := ps), q) == Holdings(s, q)
    ensures Ids(ps) == Ids(s.players)
  {
    forall q ensures Holdings(s.(players := ps), q) == Holdings(s, q) {
      OwnedByPointwise(s.players, ps, q);
    }
    assert Ids(ps) == Ids(s.players);
  }

  /** Player i loses x of what q owns, and no one else changes. */
  lemma OwnedByLose(ps: seq<Player>, i: nat, p: Player, q: string, x: multiset<Card>)
    requires i < |ps| && p.id == ps[i].id
    requires OwnIf(p, q) + x == OwnIf(ps[i], q)
    ensures OwnedBy(ps[i := p], q) + x == OwnedBy(ps, q)
  {
    OwnedByAt(ps, ps[i := p], i, q);
    Lose(OwnedBy(ps[i := p], q), OwnedBy(ps, q), OwnIf(ps[i], q), OwnIf(p, q), x);
  }

  /** The environment at position k gains x for q, and no other environment changes for q. */
  lemma EnvHoldingsGain(es: seq<EnvironmentState>, p1: map<string, map<string, seq<Card>>>,
                        ts: seq<EnvironmentState>, p2: map<string, map<string, seq<Card>>>, k: nat, q: string, x: multiset<Card>)
    requires |es| == |ts| && k < |es|
    requires forall j :: 0 <= j < |es| && j != k ==> EnvAt(p2, ts[j], q) == EnvAt(p1, es[j], q)
    requires EnvAt(p2, ts[k], q) == EnvAt(p1, es[k], q) + x
    ensures EnvHoldings(ts, p2, q) == EnvHoldings(es, p1, q) + x
  {
    EnvHoldingsAt(es, p1, ts, p2, k, q);
    Gain(EnvHoldings(ts, p2, q), EnvHoldings(es, p1, q), EnvAt(p1, es[k], q), EnvAt(p2, ts[k], q), x);
  }

  lemma ConservesTrans(s: GameState, t: GameState, u: GameState)
    requires Conserves(s, t) && Conserves(t, u) && Ids(t.players) == Ids(s.players)
    ensures Conserves(s, u)
  {
  }

  lemma SameZones(s: GameState, t: GameState)
    requires t.players == s.players && t.environmentStates == s.environmentStates
    requires t.preparedCards == s.preparedCards
    ensures Conserves(s, t) && Ids(t.players) == Ids(s.players)
  {
  }

  lemma SetPlayerConserves(s: GameState, i: nat, p: Player)
    requires i < |s.players| && p.id == s.players[i].id && Own(p) == Own(s.players[i])
    ensures Conserves(s, SetPlayer(s, i, p)) && Ids(SetPlayer(s, i, p).players) == Ids(s.players)
  {
    PlayersOnly(s, s.players[i := p]);
  }

  // ---------------------------------------------------------------- phase changes

  lemma NextTurnConserves(s: GameState)
    requires |s.players| > 0
    ensures Conserves(s, NextTurn(s).state) && Ids(NextTurn(s).state.players) == Ids(s.players)
  {
    SameZones(s, NextTurn(s).state);
  }

  lemma CheckGameStartConserves(s: GameState)
    requires Valid(s)
    ensures Conserves(s, CheckGameStart(s).state) && Ids(CheckGameStart(s).state.players) == Ids(s.players)
  {
    if s.phase == Setup && |s.players| >= 2 && AllReady(s.players) {
      var ps := s.players;
      var dealt := seq(|ps|, i requires 0 <= i < |ps| => DealOpening(ps[i]));
      forall i | 0 <= i < |ps| ensures dealt[i].id == ps[i].id && Own(dealt[i]) == Own(ps[i]) {
        assert HandFits(s.phase, ps[i]);
        OwnDealOpening(ps[i]);
      }
      PlayersOnly(s, dealt);
    }
  }

  lemma EndGameConserves(s: GameState, winnerId: Option<string>)
    ensures Conserves(s, EndGame(s, winnerId).state) && Ids(EndGame(s, winnerId).state.players) == Ids(s.players)
  {
    SameZones(s, EndGame(s, winnerId).state);
  }

  // ---------------------------------------------------------------- players joining and leaving

  lemma SetPlayerReadyConserves(s: GameState, pid: string, ready: bool)
    requires Valid(s)
    ensures Conserves(s, SetPlayerReady(s, pid, ready).state)
    ensures Ids(SetPlayerReady(s, pid, ready).state.players) == Ids(s.players)
  {
    match FindPlayer(s, pid)
    case None =>
    case Some(i) =>
      var s1 := SetPlayer(s, i, s.players[i].(isReady := ready));
      SetPlayerConserves(s, i, s.players[i].(isReady := ready));
      assert HandFits(s.phase, s.players[i]);
      SetPlayerValid(s, i, s.players[i].(isReady := ready));
      CheckGameStartConserves(s1);
      ConservesTrans(s, s1, CheckGameStart(s1).state);
  }

  lemma SetPlayerConnectionConserves(s: GameState, pid: string, connected: bool)
    ensures Conserves(s, SetPlayerConnection(s, pid, connected).state)
  {
    match FindPlayer(s, pid)
    case None =>
    case Some(i) =>
      SetPlayerConserves(s, i, s.players[i].(isConnected := connected));
  }

  lemma OwnedByAppendOther(ps: seq<Player>, p: Player, q: string)
    requires p.id != q
    ensures OwnedBy(ps + [p], q) == OwnedBy(ps, q)
  {
    OwnedByAppend(ps, [p], q);
    assert [p][1..] == [];
  }

  lemma OwnedByRemoveOther(ps: seq<Player>, i: nat, q: string)
    requires i < |ps| && ps[i].id != q
    ensures OwnedBy(RemoveAt(ps, i), q) == OwnedBy(ps, q)
  {
    assert ps == (ps[..i] + [ps[i]]) + ps[i + 1..];
    assert RemoveAt(ps, i) == ps[..i] + ps[i + 1..];
    OwnedByAppend(ps[..i] + [ps[i]], ps[i + 1..], q);
    OwnedByAppendOther(ps[..i], ps[i], q);
    OwnedByAppend(ps[..i], ps[i + 1..], q);
  }

  /** Prepared tables that agree on every list of q's hold the same for q. */
  lemma SamePreparedFor(envs: seq<EnvironmentState>, prep: map<string, map<string, seq<Card>>>,
                        prep': map<string, map<string, seq<Card>>>, q: string)
    requires forall e :: PreparedList(prep', e, q) == PreparedList(prep, e, q)
    ensures EnvHoldings(envs, prep', q) == EnvHoldings(envs, prep, q)
  {
    EnvHoldingsPointwise(envs, prep, envs, prep', q);
  }

  /** A player joining touches no other player's cards. */
  lemma AddPlayerConserves(s: GameState, pid: string, name: string, deck: seq<Card>)
    requires Valid(s)
    ensures Conserves(s, AddPlayer(s, pid, name, deck).state)
  {
    if |s.players| < s.maxPlayers && FindPlayer(s, pid).None? {
      var p := NewPlayer(s, pid, name, deck);
      var prep' := Steps.SeatPrepared(s.preparedCards, pid);
      var s1 := s.(players := s.players + [p], preparedCards := prep');
      assert pid !in Ids(s.players);
      forall q | q in Ids(s.players) ensures Holdings(s1, q) == Holdings(s, q) {
        OwnedByAppendOther(s.players, p, q);
        SamePreparedFor(s.environmentStates, s.preparedCards, prep', q);
      }
      JoinedValid(s, pid, name, deck);
      CheckGameStartConserves(s1);
    }
  }

  /** Dropping a departing player's row and its prepared lists leaves another player's holdings. */
  lemma RemovedFor(ps: seq<Player>, i: nat, es: seq<EnvironmentState>, prep: map<string, map<string, seq<Card>>>, q: string)
    requires i < |ps| && ps[i].id != q
    ensures OwnedBy(RemoveAt(ps, i), q) + EnvHoldings(es, Steps.UnseatPrepared(prep, ps[i].id), q)
         == OwnedBy(ps, q) + EnvHoldings(es, prep, q)
  {
    OwnedByRemoveOther(ps, i, q);
    SamePreparedFor(es, prep, Steps.UnseatPrepared(prep, ps[i].id), q);
  }

  lemma RemovedConserves(s: GameState, i: nat, s1: GameState)
    requires i < |s.players| && Distinct(Ids(s.players))
    requires s1.players == RemoveAt(s.players, i) && s1.environmentStates == s.environmentStates
    requires s1.preparedCards == Steps.UnseatPrepared(s.preparedCards, s.players[i].id)
    ensures Conserves(s, s1)
  {
    IdsRemoveAt(s.players, i);
    forall q | q in Ids(s1.players) ensures Holdings(s1, q) == Holdings(s, q) {
      RemovedFor(s.players, i, s.environmentStates, s.preparedCards, q);
    }
  }

  /** A player leaving touches no remaining player's cards. */
  lemma RemovePlayerConserves(s: GameState, pid: string)
    requires Valid(s)
    ensures Conserves(s, RemovePlayer(s, pid).state)
  {
    match FindPlayer(s, pid)
    case None =>
    case Some(i) =>
      var cpi := if s.currentPlayerIndex >= i && s.currentPlayerIndex > 0 then s.currentPlayerIndex - 1
                 else s.currentPlayerIndex;
      var s1 := s.(players := RemoveAt(s.players, i), currentPlayerIndex := cpi,
                   preparedCards := Steps.UnseatPrepared(s.preparedCards, pid));
      RemovedConserves(s, i, s1);
      IdsRemoveAt(s.players, i);
      EndGameConserves(s1, None);
      var t := EndGame(s1, None).state;
      forall q | q in Ids(s.players) && q in Ids(t.players) ensures Holdings(t, q) == Holdings(s, q) {
        assert Holdings(t, q) == Holdings(s1, q);
      }
  }

  // ---------------------------------------------------------------- actions

  lemma AddOne(a: multiset<Card>, b: multiset<Card>, c: Card)
    ensures (a + multiset{c}) + b == (a + b) + multiset{c}
  {
    forall o ensures ((a + multiset{c}) + b)[o] == ((a + b) + multiset{c})[o] { }
  }

  function Single(b: bool, c: Card): multiset<Card> {
    if b then multiset{c} else multiset{}
  }

  /** Preparing takes the card out of the preparing player's holdings. */
  lemma PreparedPlayerFor(ps: seq<Player>, i: nat, ci: nat, q: string)
    requires i < |ps| && ci < |ps[i].hand|
    ensures OwnedBy(ps[i := ReplaceFromDeck(ps[i], ci)], q) + Single(q == ps[i].id, ps[i].hand[ci]) == OwnedBy(ps, q)
  {
    OwnReplaceFromDeck(ps[i], ci);
    OwnedByLose(ps, i, ReplaceFromDeck(ps[i], ci), q, Single(q == ps[i].id, ps[i].hand[ci]));
  }

  /** ... and adds it to that player's prepared list at environment k. */
  lemma PreparedEnvFor(es: seq<EnvironmentState>, prep: map<string, map<string, seq<Card>>>, k: nat,
                       pid: string, c: Card, q: string)
    requires k < |es| && Distinct(StateIds(es))
    ensures EnvHoldings(es, AppendPrepared(prep, es[k].environment.id, pid, c), q)
         == EnvHoldings(es, prep, q) + Single(q == pid, c)
  {
    var e := es[k].environment.id;
    var prep' := AppendPrepared(prep, e, pid, c);
    forall j | 0 <= j < |es| && j != k ensures EnvAt(prep', es[j], q) == EnvAt(prep, es[j], q) {
      assert StateIds(es)[j] != StateIds(es)[k];
    }
    if q == pid {
      assert PreparedList(prep', e, q) == PreparedList(prep, e, q) + [c];
      AddOne(multiset(PreparedList(prep, e, q)), multiset(SlotCards(es[k].cardsInPlay, q)), c);
    } else {
      assert PreparedList(prep', e, q) == PreparedList(prep, e, q);
    }
    EnvHoldingsGain(es, prep, es, prep', k, q, Single(q == pid, c));
  }

  lemma PreparedConserves(s: GameState, i: nat, ci: nat, k: nat)
    requires i < |s.players| && ci < |s.players[i].hand| && k < |s.environmentStates|
    requires Distinct(StateIds(s.environmentStates))
    ensures var t := Prepared(s, i, ci, s.environmentStates[k].environment.id);
      Conserves(s, t) && Ids(t.players) == Ids(s.players)
  {
    var t := Prepared(s, i, ci, s.environmentStates[k].environment.id);
    var p := s.players[i];
    forall q ensures Holdings(t, q) == Holdings(s, q) {
      PreparedPlayerFor(s.players, i, ci, q);
      PreparedEnvFor(s.environmentStates, s.preparedCards, k, p.id, p.hand[ci], q);
      Balance(OwnedBy(t.players, q), OwnedBy(s.players, q),
              EnvHoldings(t.environmentStates, t.preparedCards, q), EnvHoldings(s.environmentStates, s.preparedCards, q),
              Single(q == p.id, p.hand[ci]));
    }
    assert Ids(t.players) == Ids(s.players) by {
      forall j | 0 <= j < |s.players| ensures Ids(t.players)[j] == Ids(s.players)[j] { }
    }
  }

  lemma PrepareCardConserves(s: GameState, pid: string, payload: Payload)
    requires Valid(s)
    ensures Conserves(s, PrepareCardAction(s, pid, payload).state)
    ensures Ids(PrepareCardAction(s, pid, payload).state.players) == Ids(s.players)
  {
    var r := PrepareCardAction(s, pid, payload);
    if s.phase != Handbuilding || !IsCurrent(s, pid) || !Given(payload.cardId) || !Given(payload.environmentId) {
      assert r.state == s;
    } else {
      var i: nat := s.currentPlayerIndex;
      var e := payload.environmentId.value;
      match FirstIndex(s.players[i].hand, CardId, payload.cardId.value)
      case None => assert r.state == s;
      case Some(ci) =>
        match FirstIndex(s.environmentStates, EnvironmentStateId, e)
        case None => assert r.state == s;
        case Some(k) =>
          assert StateIds(s.environmentStates)[k] == e;
          DistinctSplit(StateIds(s.environmentStates), DeckIds(s.environmentDeck));
          PreparedConserves(s, i, ci, k);
          var t := Prepared(s, i, ci, e);
          assert r.state == NextTurn(t).state;
          NextTurnConserves(t);
          ConservesTrans(s, t, NextTurn(t).state);
    }
  }

  // ---------------------------------------------------------------- INITIATE_SKIRMISH

  /** Starting a skirmish moves each player's prepared list at e back into their hand. */
  lemma SkirmishPlayersFor(ps: seq<Player>, prep: map<string, map<string, seq<Card>>>, e: string, q: string)
    requires e in prep && Distinct(Ids(ps))
    ensures OwnedBy(PickUpAll(ps, prep[e]), q)
         == OwnedBy(ps, q) + (if q in Ids(ps) then multiset(PreparedList(prep, e, q)) else multiset{})
  {
    var ts := PickUpAll(ps, prep[e]);
    forall i | 0 <= i < |ps| ensures ts[i].id == ps[i].id {
      assert Ids(ts)[i] == Ids(ps)[i];
    }
    forall i | 0 <= i < |ps| && ps[i].id == q ensures Own(ts[i]) == Own(ps[i]) + multiset(PreparedList(prep, e, q)) {
      OwnPickUp(ps[i], if ps[i].id in prep[e] then prep[e][ps[i].id] else []);
    }
    OwnedByGain(ps, ts, q, multiset(PreparedList(prep, e, q)));
  }

  /** ... and empties the prepared lists at e, which is environment k. */
  lemma SkirmishEnvFor(es: seq<EnvironmentState>, prep: map<string, map<string, seq<Card>>>, k: nat, q: string)
    requires k < |es| && Distinct(StateIds(es)) && es[k].environment.id in prep
    ensures var e := es[k].environment.id;
      EnvHoldings(es, prep[e := map r | r in prep[e] :: []], q) + multiset(PreparedList(prep, e, q))
        == EnvHoldings(es, prep, q)
  {
    var e := es[k].environment.id;
    var prep' := prep[e := map r | r in prep[e] :: []];
    forall j | 0 <= j < |es| && j != k ensures EnvAt(prep', es[j], q) == EnvAt(prep, es[j], q) {
      assert StateIds(es)[j] != StateIds(es)[k];
    }
    assert PreparedList(prep', e, q) == [];
    EnvHoldingsAt(es, prep, es, prep', k, q);
    var slots := multiset(SlotCards(es[k].cardsInPlay, q));
    var x := multiset(PreparedList(prep, e, q));
    Lose(EnvHoldings(es, prep', q), EnvHoldings(es, prep, q), x + slots, slots, x);
  }

  lemma StartSkirmishConserves(s: GameState, e: string, initiator: string)
    requires Valid(s) && e in s.preparedCards
    ensures Conserves(s, StartSkirmish(s, e, initiator).state)
    ensures Ids(StartSkirmish(s, e, initiator).state.players) == Ids(s.players)
  {
    var t := StartSkirmish(s, e, initiator).state;
    assert e in StateIds(s.environmentStates);
    var k :| 0 <= k < |s.environmentStates| && StateIds(s.environmentStates)[k] == e;
    DistinctSplit(StateIds(s.environmentStates), DeckIds(s.environmentDeck));
    forall q | q in Ids(s.players) ensures Holdings(t, q) == Holdings(s, q) {
      SkirmishPlayersFor(s.players, s.preparedCards, e, q);
      SkirmishEnvFor(s.environmentStates, s.preparedCards, k, q);
      Balance(OwnedBy(t.players, q), OwnedBy(s.players, q),
              EnvHoldings(t.environmentStates, t.preparedCards, q), EnvHoldings(s.environmentStates, s.preparedCards, q),
              multiset(PreparedList(s.preparedCards, e, q)));
    }
  }

  lemma InitiateSkirmishConserves(s: GameState, pid: string, payload: Payload)
    requires Valid(s) && InitiateDefined(s, payload)
    ensures Conserves(s, InitiateSkirmishAction(s, pid, payload).state)
    ensures Ids(InitiateSkirmishAction(s, pid, payload).state.players) == Ids(s.players)
  {
    if s.phase == Handbuilding && Given(payload.environmentId) {
      var e := payload.environmentId.value;
      if CardRules.SumLengths(s.preparedCards[e]) >= CardRules.SKIRMISH_THRESHOLD {
        StartSkirmishConserves(s, e, pid);
      }
    }
  }

  // ---------------------------------------------------------------- PLAY_CARD

  lemma OwnRemoveFromHand(p: Player, ci: nat)
    requires ci < |p.hand|
    ensures Own(p.(hand := RemoveAt(p.hand, ci))) + multiset{p.hand[ci]} == Own(p)
  {
  }

  lemma AddOneRight(a: multiset<Card>, b: multiset<Card>, c: Card)
    ensures a + (b + multiset{c}) == (a + b) + multiset{c}
  {
    forall o ensures (a + (b + multiset{c}))[o] == ((a + b) + multiset{c})[o] { }
  }

  /** Playing takes the card out of the player's hand ... */
  lemma PlayedPlayerFor(ps: seq<Player>, i: nat, ci: nat, q: string)
    requires i < |ps| && ci < |ps[i].hand|
    ensures OwnedBy(ps[i := ps[i].(hand := RemoveAt(ps[i].hand, ci))], q) + Single(q == ps[i].id, ps[i].hand[ci])
         == OwnedBy(ps, q)
  {
    OwnRemoveFromHand(ps[i], ci);
    OwnedByLose(ps, i, ps[i].(hand := RemoveAt(ps[i].hand, ci)), q, Single(q == ps[i].id, ps[i].hand[ci]));
  }

  /** ... and puts it into the player's slot at environment a. */
  lemma PlayedEnvFor(es: seq<EnvironmentState>, prep: map<string, map<string, seq<Card>>>, a: nat,
                     pid: string, c: Card, q: string)
    requires a < |es| && Distinct(SlotIds(es[a].cardsInPlay))
    ensures EnvHoldings(es[a := es[a].(cardsInPlay := AddToSlot(es[a].cardsInPlay, pid, c))], prep, q)
         == EnvHoldings(es, prep, q) + Single(q == pid, c)
  {
    var env1 := es[a].(cardsInPlay := AddToSlot(es[a].cardsInPlay, pid, c));
    AddToSlotFacts(es[a].cardsInPlay, pid, c);
    if q == pid {
      AddOneRight(multiset(PreparedList(prep, es[a].environment.id, q)), multiset(SlotCards(es[a].cardsInPlay, q)), c);
    }
    EnvHoldingsGain(es, prep, es[a := env1], prep, a, q, Single(q == pid, c));
  }

  lemma PlayedConserves(s: GameState, i: nat, ci: nat, a: nat)
    requires i < |s.players| && ci < |s.players[i].hand| && a < |s.environmentStates|
    requires Distinct(SlotIds(s.environmentStates[a].cardsInPlay))
    ensures Conserves(s, Played(s, i, ci, a)) && Ids(Played(s, i, ci, a).players) == Ids(s.players)
  {
    var t := Played(s, i, ci, a);
    var p := s.players[i];
    forall q ensures Holdings(t, q) == Holdings(s, q) {
      PlayedPlayerFor(s.players, i, ci, q);
      PlayedEnvFor(s.environmentStates, s.preparedCards, a, p.id, p.hand[ci], q);
      Balance(OwnedBy(t.players, q), OwnedBy(s.players, q),
              EnvHoldings(t.environmentStates, t.preparedCards, q), EnvHoldings(s.environmentStates, s.preparedCards, q),
              Single(q == p.id, p.hand[ci]));
    }
    assert Ids(t.players) == Ids(s.players) by {
      forall j | 0 <= j < |s.players| ensures Ids(t.players)[j] == Ids(s.players)[j] { }
    }
  }

  lemma PlayCardConserves(s: GameState, pid: string, payload: Payload)
    requires Valid(s)
    ensures Conserves(s, PlayCardAction(s, pid, payload).state)
    ensures Ids(PlayCardAction(s, pid, payload).state.players) == Ids(s.players)
  {
    var r := PlayCardAction(s, pid, payload);
    if s.phase != Skirmish || !IsCurrent(s, pid) || s.players[s.currentPlayerIndex].hasPassed || !Given(payload.cardId) {
      assert r.state == s;
    } else {
      var i: nat := s.currentPlayerIndex;
      var p := s.players[i];
      match FirstIndex(p.hand, CardId, payload.cardId.value)
      case None => assert r.state == s;
      case Some(ci) =>
        match ActiveIndex(s)
        case None => assert r.state == s;
        case Some(a) =>
          var env := s.environmentStates[a];
          if !CardRules.CanPlayCard(p.hand[ci], env.environment.title, Scoring.AllCardsInPlay(env.cardsInPlay)) {
            assert r.state == s;
          } else {
            PlayedConserves(s, i, ci, a);
            var t := Played(s, i, ci, a);
            assert r.state == NextTurn(t).state;
            NextTurnConserves(t);
            ConservesTrans(s, t, NextTurn(t).state);
          }
    }
  }

  // ---------------------------------------------------------------- TAKE_ITEM

  lemma TakenConserves(s: GameState, i: nat, a: nat, ii: nat, ids: seq<string>)
    requires i < |s.players| && a < |s.environmentStates| && ii < |s.environmentStates[a].items|
    ensures Conserves(s, Taken(s, i, a, ii, ids)) && Ids(Taken(s, i, a, ii, ids).players) == Ids(s.players)
  {
    var t := Taken(s, i, a, ii, ids);
    var p := s.players[i];
    OwnDiscardCards(p, ids);
    var s1 := SetPlayer(s, i, DiscardCards(p, ids));
    SetPlayerConserves(s, i, DiscardCards(p, ids));
    forall q ensures Holdings(t, q) == Holdings(s1, q) {
      EnvHoldingsPointwise(s.environmentStates, s.preparedCards, t.environmentStates, t.preparedCards, q);
    }
  }

  lemma TakeItemConserves(s: GameState, pid: string, payload: Payload)
    requires Valid(s)
    ensures Conserves(s, TakeItemAction(s, pid, payload).state)
    ensures Ids(TakeItemAction(s, pid, payload).state.players) == Ids(s.players)
  {
    var r := TakeItemAction(s, pid, payload);
    if r.error.None? {
      var i: nat := s.currentPlayerIndex;
      var p := s.players[i];
      var a := ActiveIndex(s).value;
      var env := s.environmentStates[a];
      var ii := FirstIndex(env.items, ItemId, payload.itemId.value).value;
      var cost := CostOf(env.items[ii]);
      var ids := if cost > 0 then payload.discardedCardIds.value else [];
      TakenConserves(s, i, a, ii, ids);
      var t := Taken(s, i, a, ii, ids);
      assert r.state == NextTurn(t).state;
      NextTurnConserves(t);
      ConservesTrans(s, t, NextTurn(t).state);
    } else {
      assert r.state == s;
    }
  }

  // ---------------------------------------------------------------- DISCARD_TO_HAND_LIMIT

  lemma DiscardToHandLimitConserves(s: GameState, pid: string, payload: Payload)
    ensures Conserves(s, DiscardToHandLimitAction(s, pid, payload).state)
    ensures Ids(DiscardToHandLimitAction(s, pid, payload).state.players) == Ids(s.players)
  {
    match FindPlayer(s, pid)
    case None =>
    case Some(i) =>
      if payload.discardedCardIds.Some? {
        OwnDiscardCards(s.players[i], payload.discardedCardIds.value);
        SetPlayerConserves(s, i, DiscardCards(s.players[i], payload.discardedCardIds.value));
      }
  }

  // ---------------------------------------------------------------- skirmish resolution

  lemma CreditWinConserves(s: GameState, pid: string)
    ensures Conserves(s, CreditWin(s, pid)) && Ids(CreditWin(s, pid).players) == Ids(s.players)
  {
    match FindPlayer(s, pid)
    case None =>
    case Some(j) => SetPlayerConserves(s, j, s.players[j].(skirmishesWon := s.players[j].skirmishesWon + 1));
  }

  lemma OwnDiscardInPlay(p: Player, slots: seq<Slot>)
    ensures Own(DiscardInPlay(p, slots)) == Own(p) + multiset(SlotCards(slots, p.id))
  {
  }

  /** Cleanup moves each player's in-play cards at the ended environment to their discard pile. */
  lemma CleanupPlayersFor(ps: seq<Player>, slots: seq<Slot>, q: string)
    requires Distinct(Ids(ps))
    ensures OwnedBy(DiscardAllInPlay(ps, slots), q)
         == OwnedBy(ps, q) + (if q in Ids(ps) then multiset(SlotCards(slots, q)) else multiset{})
  {
    var ts := DiscardAllInPlay(ps, slots);
    forall i | 0 <= i < |ps| ensures ts[i].id == ps[i].id {
      assert Ids(ts)[i] == Ids(ps)[i];
    }
    forall i | 0 <= i < |ps| && ps[i].id == q ensures Own(ts[i]) == Own(ps[i]) + multiset(SlotCards(slots, q)) {
      OwnDiscardInPlay(ps[i], slots);
    }
    OwnedByGain(ps, ts, q, multiset(SlotCards(slots, q)));
  }

  /** ... and leaves at position a an environment with nothing in play and nothing prepared. */
  lemma CleanupEnvFor(es: seq<EnvironmentState>, p1: map<string, map<string, seq<Card>>>,
                      ts: seq<EnvironmentState>, p2: map<string, map<string, seq<Card>>>, a: nat, q: string)
    requires |ts| == |es| && a < |es|
    requires forall j :: 0 <= j < |es| && j != a ==> EnvAt(p2, ts[j], q) == EnvAt(p1, es[j], q)
    requires PreparedList(p1, es[a].environment.id, q) == [] && PreparedList(p2, ts[a].environment.id, q) == []
    requires ts[a].cardsInPlay == []
    ensures EnvHoldings(ts, p2, q) + multiset(SlotCards(es[a].cardsInPlay, q)) == EnvHoldings(es, p1, q)
  {
    EnvHoldingsAt(es, p1, ts, p2, a, q);
    assert EnvAt(p1, es[a], q) == multiset(SlotCards(es[a].cardsInPlay, q));
    assert EnvAt(p2, ts[a], q) == multiset{};
  }

  /** The environment at a after cleanup, when the deck is not empty: the first deck entry,
      with a fresh, empty prepared table under its id and the ended id's table dropped. */
  lemma CleanupReplacedFor(es: seq<EnvironmentState>, prep: map<string, map<string, seq<Card>>>,
                           ts: seq<EnvironmentState>, prep': map<string, map<string, seq<Card>>>,
                           deck: seq<Environment>, a: nat, active: string, keys: seq<string>, q: string)
    requires a < |es| && |ts| == |es| && |deck| > 0 && Distinct(StateIds(es) + DeckIds(deck))
    requires StateIds(es)[a] == active && PreparedList(prep, active, q) == []
    requires forall j :: 0 <= j < |es| && j != a ==> ts[j] == es[j]
    requires ts[a].environment == deck[0] && ts[a].cardsInPlay == []
    requires prep' == prep[deck[0].id := map r | r in keys :: []] - {active}
    ensures EnvHoldings(ts, prep', q) + multiset(SlotCards(es[a].cardsInPlay, q)) == EnvHoldings(es, prep, q)
  {
    DistinctSplit(StateIds(es), DeckIds(deck));
    assert deck[0].id == DeckIds(deck)[0];
    forall j | 0 <= j < |es| && j != a ensures EnvAt(prep', ts[j], q) == EnvAt(prep, es[j], q) {
      assert StateIds(es)[j] != StateIds(es)[a];
      assert StateIds(es)[j] != deck[0].id;
    }
    assert deck[0].id != active;
    CleanupEnvFor(es, prep, ts, prep', a, q);
  }

  lemma CleanupEnvsFor(s: GameState, a: nat, q: string)
    requires a < |s.environmentStates| && Distinct(StateIds(s.environmentStates) + DeckIds(s.environmentDeck))
    requires s.activeEnvironmentId.Some? && StateIds(s.environmentStates)[a] == s.activeEnvironmentId.value
    requires PreparedList(s.preparedCards, s.activeEnvironmentId.value, q) == []
    ensures var t := CleanupAfterSkirmish(s, a);
      EnvHoldings(t.environmentStates, t.preparedCards, q) + multiset(SlotCards(s.environmentStates[a].cardsInPlay, q))
        == EnvHoldings(s.environmentStates, s.preparedCards, q)
  {
    var t := CleanupAfterSkirmish(s, a);
    var es := s.environmentStates;
    if |s.environmentDeck| > 0 {
      CleanupReplacedFor(es, s.preparedCards, t.environmentStates, t.preparedCards, s.environmentDeck, a,
                         s.activeEnvironmentId.value, Ids(DiscardAllInPlay(s.players, es[a].cardsInPlay)), q);
    } else {
      CleanupEnvFor(es, s.preparedCards, t.environmentStates, t.preparedCards, a, q);
    }
  }

  lemma CleanupConserves(s: GameState, a: nat)
    requires Valid(s) && s.phase == Skirmish && ActiveIndex(s) == Some(a)
    ensures var t := CleanupAfterSkirmish(s, a);
      Conserves(s, t) && Ids(t.players) == Ids(s.players)
  {
    var t := CleanupAfterSkirmish(s, a);
    var slots := s.environmentStates[a].cardsInPlay;
    assert StateIds(s.environmentStates)[a] == s.activeEnvironmentId.value;
    forall q | q in Ids(s.players) ensures Holdings(t, q) == Holdings(s, q) {
      assert PreparedList(s.preparedCards, s.activeEnvironmentId.value, q) == [];
      CleanupEnvsFor(s, a, q);
      CleanupPlayersFor(s.players, slots, q);
      Balance(OwnedBy(t.players, q), OwnedBy(s.players, q),
              EnvHoldings(t.environmentStates, t.preparedCards, q), EnvHoldings(s.environmentStates, s.preparedCards, q),
              multiset(SlotCards(slots, q)));
    }
  }

  lemma StartNextRoundConserves(s: GameState)
    requires |s.players| > 0
    ensures Conserves(s, StartNextRound(s).state) && Ids(StartNextRound(s).state.players) == Ids(s.players)
  {
    var ps := TopUpAll(s.players);
    forall i | 0 <= i < |ps| ensures ps[i].id == s.players[i].id && Own(ps[i]) == Own(s.players[i]) {
      assert Ids(ps)[i] == Ids(s.players)[i];
      OwnTopUp(s.players[i]);
    }
    PlayersOnly(s, ps);
    var s1 := s.(phase := Handbuilding, activeEnvironmentId := None, skirmishInitiatorId := None, players := ps);
    assert forall q :: Holdings(s1, q) == Holdings(s.(players := ps), q);
    NextTurnConserves(s1);
    ConservesTrans(s, s1, NextTurn(s1).state);
  }

  lemma EndSkirmishConserves(s: GameState)
    requires Valid(s) && s.phase == Skirmish && |s.players| > 0
    ensures Conserves(s, EndSkirmish(s).state) && Ids(EndSkirmish(s).state.players) == Ids(s.players)
  {
    match ActiveIndex(s)
    case None =>
    case Some(a) =>
      var scores := Scoring.CalculateScores(s.players, s.environmentStates[a].cardsInPlay);
      var winner := Scoring.DetermineWinner(scores);
      var s1 := if winner.Some? then CreditWin(s, winner.value.playerId) else s;
      if winner.Some? {
        CreditWinValid(s, winner.value.playerId);
        CreditWinConserves(s, winner.value.playerId);
      }
      assert ActiveIndex(s1) == Some(a);
      CleanupConserves(s1, a);
      var s2 := CleanupAfterSkirmish(s1, a);
      ConservesTrans(s, s1, s2);
      if winner.Some? && WonEnough(s2, winner.value.playerId) {
        EndGameConserves(s2, Some(winner.value.playerId));
        ConservesTrans(s, s2, EndGame(s2, Some(winner.value.playerId)).state);
      } else {
        StartNextRoundConserves(s2);
        ConservesTrans(s, s2, StartNextRound(s2).state);
      }
  }

  // ---------------------------------------------------------------- PASS

  lemma PassConserves(s: GameState, pid: string)
    requires Valid(s)
    ensures Conserves(s, PassAction(s, pid).state) && Ids(PassAction(s, pid).state.players) == Ids(s.players)
  {
    if s.phase == Skirmish && FindPlayer(s, pid).Some? {
      var i := FindPlayer(s, pid).value;
      var p := s.players[i];
      if !p.hasPassed {
        var p1 := p.(hasPassed := true, discardPile := p.discardPile + p.hand, hand := []);
        SetPlayerConserves(s, i, p1);
        var s1 := Passed(s, i);
        if Scoring.ShouldEndSkirmish(s1.players) {
          SetPlayerValid(s, i, p1);
          EndSkirmishConserves(s1);
          ConservesTrans(s, s1, EndSkirmish(s1).state);
        } else {
          NextTurnConserves(s1);
          ConservesTrans(s, s1, NextTurn(s1).state);
        }
      }
    }
  }

  // ---------------------------------------------------------------- the dispatcher

  /** No action creates or destroys a player's card, and no action adds or removes a player. */
  lemma ProcessActionConserves(s: GameState, action: Action)
    requires Valid(s) && ProcessDefined(s, action)
    ensures Conserves(s, ProcessAction(s, action).state)
    ensures Ids(ProcessAction(s, action).state.players) == Ids(s.players)
  {
    var pid := action.playerId;
    var t := action.actionType;
    if FindPlayer(s, pid).None? {
    } else if t.ReadyUp? {
      SetPlayerReadyConserves(s, pid, true);
    } else if t.PrepareCard? {
      PrepareCardConserves(s, pid, action.payload);
    } else if t.InitiateSkirmish? {
      InitiateSkirmishConserves(s, pid, action.payload);
    } else if t.PlayCard? {
      PlayCardConserves(s, pid, action.payload);
    } else if t.TakeItem? {
      TakeItemConserves(s, pid, action.payload);
    } else if t.Pass? {
      PassConserves(s, pid);
    } else if t.DiscardToHandLimit? {
      DiscardToHandLimitConserves(s, pid, action.payload);
    }
  }
}
