/** What each GameEngine operation does, as a function from the game state
    (and the operation's arguments) to the new state, the events it emits in
    order, and the GameError it returns, if any. The branches and their order
    are the source's; the class in engine.dfy performs the same updates in
    place and is proved to agree with these functions. */
module Steps {
  import opened GameTypes
  import CardRules
  import CardData
  import Images
  import opened Zones
  import Scoring

  datatype Step = Step(state: GameState, emitted: seq<Event>, error: Option<GameError>)

  /** An error return: the state is left exactly as it was and nothing is emitted. */
  function Fail(s: GameState, code: ErrorCode, message: string): Step {
    Step(s, [], Some(GameError(code, message)))
  }

  function Done(s: GameState, emitted: seq<Event>): Step {
    Step(s, emitted, None)
  }

  /** Events emitted first, then whatever the rest of the operation emits. */
  function Emit(first: seq<Event>, rest: Step): Step {
    Step(rest.state, first + rest.emitted, rest.error)
  }

  // ---------------------------------------------------------------- lookups

  function FindPlayer(s: GameState, pid: string): Option<nat> {
    FirstIndex(s.players, PlayerId, pid)
  }

  /** `getPlayer`. */
  function GetPlayer(s: GameState, pid: string): Option<Player> {
    match FindPlayer(s, pid)
    case None => None
    case Some(i) => Some(s.players[i])
  }

  /** `getCurrentPlayer`: the player at the current index, or None when there is none there. */
  function CurrentPlayer(s: GameState): Option<Player> {
    if |s.players| == 0 then None
    else if 0 <= s.currentPlayerIndex < |s.players| then Some(s.players[s.currentPlayerIndex])
    else None
  }

  predicate IsCurrent(s: GameState, pid: string) {
    CurrentPlayer(s).Some? && CurrentPlayer(s).value.id == pid
  }

  /** The position of the environment whose id is the active environment id. */
  function ActiveIndex(s: GameState): (r: Option<nat>)
    ensures r.Some? ==> r.value < |s.environmentStates|
  {
    match s.activeEnvironmentId
    case None => None
    case Some(a) => FirstIndex(s.environmentStates, EnvironmentStateId, a)
  }

  function SetPlayer(s: GameState, i: nat, p: Player): GameState
    requires i < |s.players|
  {
    s.(players := s.players[i := p])
  }

  /** JavaScript's `%`, whose result takes the sign of the dividend. */
  function JsRemainder(a: int, n: int): int
    requires n > 0
  {
    if a >= 0 then a % n else -((-a) % n)
  }

  // ---------------------------------------------------------------- per-player updates

  /** The opening deal: the first three cards of the deck become the hand. */
  function DealOpening(p: Player): Player {
    var d := CardRules.DrawCards(p.deck, 3);
    p.(hand := d.drawnCards, deck := d.remainingDeck, hasPassed := false)
  }

  /** Picking up the prepared cards at the skirmish's environment, then discarding from
      the end of the hand down to ten cards. */
  function PickUp(p: Player, prepared: seq<Card>): Player {
    var h := p.hand + prepared;
    if |h| > CardRules.SKIRMISH_HAND_LIMIT then
      p.(hand := h[..CardRules.SKIRMISH_HAND_LIMIT], discardPile := p.discardPile + h[CardRules.SKIRMISH_HAND_LIMIT..], hasPassed := false)
    else p.(hand := h, hasPassed := false)
  }

  /** Drawing back up to three cards at the start of the next round. */
  function TopUp(p: Player): Player {
    var need := 3 - |p.hand|;
    if need > 0 && |p.deck| > 0 then
      var d := CardRules.DrawCards(p.deck, need);
      p.(hand := p.hand + d.drawnCards, deck := d.remainingDeck, hasPassed := false)
    else p.(hasPassed := false)
  }

  /** The player's in-play cards at an environment go to the end of their discard pile. */
  function DiscardInPlay(p: Player, slots: seq<Slot>): Player {
    p.(discardPile := p.discardPile + SlotCards(slots, p.id))
  }

  datatype Piles = Piles(hand: seq<Card>, discard: seq<Card>)

  /** For each id in order: if a card with that id is still in the hand, the first such card
      moves to the end of the discard pile; ids not found are skipped. */
  function DiscardByIds(hand: seq<Card>, discard: seq<Card>, ids: seq<string>): (r: Piles)
    ensures multiset(r.hand) + multiset(r.discard) == multiset(hand) + multiset(discard)
    ensures |r.discard| >= |discard| && r.discard[..|discard|] == discard
    ensures |hand| - |r.hand| == |r.discard| - |discard| <= |ids|
    decreases |ids|
  {
    if ids == [] then Piles(hand, discard)
    else match FirstIndex(hand, CardId, ids[0])
      case None => DiscardByIds(hand, discard, ids[1..])
      case Some(k) =>
        var r := DiscardByIds(RemoveAt(hand, k), discard + [hand[k]], ids[1..]);
        assert r.discard[..|discard|] == (discard + [hand[k]])[..|discard|];
        r
  }

  /** `cardsInPlay[q].push(card)`, creating q's entry at the end when it is missing. */
  function AddToSlot(slots: seq<Slot>, q: string, c: Card): seq<Slot> {
    match FirstIndex(slots, SlotId, q)
    case None => slots + [Slot(q, [c])]
    case Some(i) => slots[i := Slot(q, slots[i].cards + [c])]
  }

  /** `preparedCards[e][q].push(card)`. */
  function AppendPrepared(prep: map<string, map<string, seq<Card>>>, e: string, q: string, c: Card)
    : map<string, map<string, seq<Card>>>
  {
    var inner := if e in prep then prep[e] else map[];
    prep[e := inner[q := PreparedList(prep, e, q) + [c]]]
  }

  function UsedBy(used: map<string, seq<Item>>, q: string): seq<Item> {
    if q in used then used[q] else []
  }

  /** A non-numeric discard cost counts as 0. */
  function CostOf(item: Item): int {
    match item.discardCost
    case Int(n) => n
    case Dynamic => 0
  }

  predicate AllInHand(hand: seq<Card>, ids: seq<string>) {
    forall k :: 0 <= k < |ids| ==> FirstIndex(hand, CardId, ids[k]).Some?
  }

  // ---------------------------------------------------------------- construction

  /** The state the constructor builds from the two shuffled decks: the first three environments
      are dealt, each with the item popped from the end of the item deck (the last, then the
      one before, then the one before that), and the item deck keeps only what is left after
      three more items are sliced off its end. */
  function InitialState(gameId: Option<string>, freshGameId: string, maxPlayers: int, isQuickGame: bool,
                        envDeck: seq<Environment>, itemDeck: seq<Item>): GameState
    requires |envDeck| >= 3 && |itemDeck| >= 6
  {
    var n := |itemDeck|;
    var states := [
      EnvironmentState(envDeck[0], [itemDeck[n - 1]], [], map[]),
      EnvironmentState(envDeck[1], [itemDeck[n - 2]], [], map[]),
      EnvironmentState(envDeck[2], [itemDeck[n - 3]], [], map[])];
    GameState(
      if Given(gameId) then gameId.value else freshGameId,
      [], 0, Setup,
      EmptyTables(StateIds(states)),
      None, None, states, 0, maxPlayers,
      if isQuickGame then 2 else 3,
      envDeck[3..], itemDeck[..n - 6])
  }

  // ---------------------------------------------------------------- turn and phase changes

  function NextTurn(s: GameState): Step
    requires |s.players| > 0
  {
    Done(s.(currentPlayerIndex := JsRemainder(s.currentPlayerIndex + 1, |s.players|), turn := s.turn + 1), [GameUpdated])
  }

  function StartHandbuilding(s: GameState): Step {
    var ps := s.players;
    Done(s.(phase := Handbuilding, turn := 1, currentPlayerIndex := 0,
            players := seq(|ps|, i requires 0 <= i < |ps| => DealOpening(ps[i]))),
         [PhaseChanged(Handbuilding)])
  }

  predicate AllReady(players: seq<Player>) {
    forall i :: 0 <= i < |players| ==> players[i].isReady
  }

  function CheckGameStart(s: GameState): Step {
    if s.phase == Setup && |s.players| >= 2 && AllReady(s.players) then StartHandbuilding(s)
    else Done(s, [])
  }

  function EndGame(s: GameState, winnerId: Option<string>): Step {
    var winner := if Given(winnerId) then GetPlayer(s, winnerId.value) else None;
    Done(s.(phase := Finished), [GameEnded(winner, Scoring.Standings(s.players))])
  }

  // ---------------------------------------------------------------- players joining and leaving

  /** An empty prepared table for each of the environment ids. */
  function EmptyTables(envIds: seq<string>): (r: map<string, map<string, seq<Card>>>)
    ensures forall e :: e in r <==> e in envIds
    ensures forall e :: e in r ==> r[e] == map[]
  {
    map e | e in envIds :: map[]
  }

  /** An empty prepared list for each of the player ids. */
  function EmptyLists(playerIds: seq<string>): (r: map<string, seq<Card>>)
    ensures forall q :: q in r <==> q in playerIds
    ensures forall q :: q in r ==> r[q] == []
  {
    map q | q in playerIds :: []
  }

  /** The same players' lists, all emptied. */
  function ClearedLists(prepared: map<string, seq<Card>>): (r: map<string, seq<Card>>)
    ensures r.Keys == prepared.Keys
    ensures forall q :: q in r ==> r[q] == []
  {
    map q | q in prepared :: []
  }

  /** Every environment's prepared table with an empty list added for `pid`. */
  function SeatPrepared(prep: map<string, map<string, seq<Card>>>, pid: string): (r: map<string, map<string, seq<Card>>>)
    ensures r.Keys == prep.Keys
    ensures forall e :: e in r ==> r[e] == prep[e][pid := []]
  {
    map e | e in prep :: prep[e][pid := []]
  }

  /** Every environment's prepared table with `pid`'s list deleted. */
  function UnseatPrepared(prep: map<string, map<string, seq<Card>>>, pid: string): (r: map<string, map<string, seq<Card>>>)
    ensures r.Keys == prep.Keys
    ensures forall e :: e in r ==> r[e] == prep[e] - {pid}
  {
    map e | e in prep :: prep[e] - {pid}
  }

  /** The deck a joining player gets: a fresh player deck (`newCardId` standing for its uuids),
      shuffled with the oracle `random`. */
  function JoiningDeck(newCardId: nat -> string, random: nat -> nat): seq<Card> {
    CardData.Shuffled(CardData.CreatePlayerDeck(newCardId), random)
  }

  function NewPlayer(s: GameState, pid: string, name: string, deck: seq<Card>): Player {
    Player(pid, name, CardData.JoinColor(|s.players|), [], deck, [], false, true, 0, false)
  }

  /** `deck` is the joining player's new deck, `JoiningDeck` in the engine. */
  function AddPlayer(s: GameState, pid: string, name: string, deck: seq<Card>): Step {
    if |s.players| >= s.maxPlayers then Fail(s, GameFull, "Game is already full")
    else if FindPlayer(s, pid).Some? then Fail(s, PlayerNotInGame, "Player is already in the game")
    else
      var p := NewPlayer(s, pid, name, deck);
      var s1 := s.(players := s.players + [p],
                   preparedCards := SeatPrepared(s.preparedCards, pid));
      Emit([PlayerJoined(p)], CheckGameStart(s1))
  }

  function RemovePlayer(s: GameState, pid: string): Step {
    match FindPlayer(s, pid)
    case None => Fail(s, PlayerNotInGame, "Player is not in this game")
    case Some(i) =>
      var removed := s.players[i];
      var cpi := if s.currentPlayerIndex >= i && s.currentPlayerIndex > 0 then s.currentPlayerIndex - 1
                 else s.currentPlayerIndex;
      var s1 := s.(players := RemoveAt(s.players, i), currentPlayerIndex := cpi,
                   preparedCards := UnseatPrepared(s.preparedCards, pid));
      if |s1.players| < 2 && s.phase != Setup then Emit([PlayerLeft(removed)], EndGame(s1, None))
      else Done(s1, [PlayerLeft(removed)])
  }

  function SetPlayerReady(s: GameState, pid: string, ready: bool): Step {
    match FindPlayer(s, pid)
    case None => Fail(s, PlayerNotInGame, "Player is not in this game")
    case Some(i) => Emit([GameUpdated], CheckGameStart(SetPlayer(s, i, s.players[i].(isReady := ready))))
  }

  /** Returns nothing in the source; an unknown player changes nothing. */
  function SetPlayerConnection(s: GameState, pid: string, connected: bool): Step {
    match FindPlayer(s, pid)
    case None => Done(s, [])
    case Some(i) => Done(SetPlayer(s, i, s.players[i].(isConnected := connected)), [GameUpdated])
  }

  // ---------------------------------------------------------------- handbuilding actions

  function PrepareCardAction(s: GameState, pid: string, payload: Payload): Step {
    if s.phase != Handbuilding then Fail(s, WrongPhase, "Can only prepare cards during handbuilding phase")
    else if !IsCurrent(s, pid) then Fail(s, NotPlayerTurn, "It is not your turn")
    else if !Given(payload.cardId) || !Given(payload.environmentId) then
      Fail(s, InvalidMove, "Card ID and Environment ID are required")
    else
      var i: nat := s.currentPlayerIndex;
      var p := s.players[i];
      match FirstIndex(p.hand, CardId, payload.cardId.value)
      case None => Fail(s, InvalidMove, "Card not found in hand")
      case Some(ci) =>
        var e := payload.environmentId.value;
        if FirstIndex(s.environmentStates, EnvironmentStateId, e).None? then Fail(s, InvalidMove, "Environment not found")
        else
          Emit([CardPrepared(pid, p.hand[ci], e)], NextTurn(Prepared(s, i, ci, e)))
  }

  /** The hand loses card ci and, when the deck is not empty, draws one card. */
  function ReplaceFromDeck(p: Player, ci: nat): Player
    requires ci < |p.hand|
  {
    var p1 := p.(hand := RemoveAt(p.hand, ci));
    if |p1.deck| > 0 then
      var d := CardRules.DrawCards(p1.deck, 1);
      p1.(hand := p1.hand + d.drawnCards, deck := d.remainingDeck)
    else p1
  }

  /** The update of a successful PREPARE_CARD, before the turn advances. */
  function Prepared(s: GameState, i: nat, ci: nat, e: string): GameState
    requires i < |s.players| && ci < |s.players[i].hand|
  {
    var p := s.players[i];
    SetPlayer(s, i, ReplaceFromDeck(p, ci)).(preparedCards := AppendPrepared(s.preparedCards, e, p.id, p.hand[ci]))
  }

  /** The source reads `preparedCards[environmentId]` without checking that the key exists;
      for an unknown environment the total it then computes fails with a TypeError. That case is
      excluded here rather than modelled. */
  predicate InitiateDefined(s: GameState, payload: Payload) {
    s.phase == Handbuilding && Given(payload.environmentId) ==> payload.environmentId.value in s.preparedCards
  }

  ghost function InitiateSkirmishAction(s: GameState, pid: string, payload: Payload): Step
    requires InitiateDefined(s, payload)
  {
    if s.phase != Handbuilding then Fail(s, WrongPhase, "Can only initiate skirmishes during handbuilding phase")
    else if !Given(payload.environmentId) then Fail(s, InvalidMove, "Environment ID is required")
    else
      var e := payload.environmentId.value;
      if CardRules.SumLengths(s.preparedCards[e]) < CardRules.SKIRMISH_THRESHOLD then
        Fail(s, EnvironmentNotReady, "Need at least 8 total prepared cards to initiate skirmish")
      else StartSkirmish(s, e, pid)
  }

  function PickUpAll(players: seq<Player>, prepared: map<string, seq<Card>>): (r: seq<Player>)
    ensures |r| == |players|
    ensures Ids(r) == Ids(players)
  {
    seq(|players|, i requires 0 <= i < |players| =>
      PickUp(players[i], if players[i].id in prepared then prepared[players[i].id] else []))
  }

  function StartSkirmish(s: GameState, e: string, initiator: string): Step
    requires e in s.preparedCards
  {
    var prepared := s.preparedCards[e];
    var ps := PickUpAll(s.players, prepared);
    var cpi := match FirstIndex(ps, PlayerId, initiator) case Some(k) => k case None => -1;
    Done(s.(phase := Skirmish, activeEnvironmentId := Some(e), skirmishInitiatorId := Some(initiator),
            players := ps, preparedCards := s.preparedCards[e := ClearedLists(prepared)],
            currentPlayerIndex := cpi),
         [SkirmishInitiated(e, initiator)])
  }

  // ---------------------------------------------------------------- skirmish actions

  function PlayCardAction(s: GameState, pid: string, payload: Payload): Step {
    if s.phase != Skirmish then Fail(s, WrongPhase, "Can only play cards during skirmish phase")
    else if !IsCurrent(s, pid) then Fail(s, NotPlayerTurn, "It is not your turn")
    else
      var i: nat := s.currentPlayerIndex;
      var p := s.players[i];
      if p.hasPassed then Fail(s, InvalidMove, "You have already passed")
      else if !Given(payload.cardId) then Fail(s, InvalidMove, "Card ID is required")
      else match FirstIndex(p.hand, CardId, payload.cardId.value)
        case None => Fail(s, InvalidMove, "Card not found in hand")
        case Some(ci) =>
          var card := p.hand[ci];
          match ActiveIndex(s)
          case None => Fail(s, InvalidMove, "No active environment")
          case Some(a) =>
            var env := s.environmentStates[a];
            if !CardRules.CanPlayCard(card, env.environment.title, Scoring.AllCardsInPlay(env.cardsInPlay)) then
              Fail(s, CannotPlayCard, "This card cannot be played right now")
            else Emit([CardPlayed(pid, card, s.activeEnvironmentId)], NextTurn(Played(s, i, ci, a)))
  }

  /** The update of a successful PLAY_CARD, before the turn advances. */
  function Played(s: GameState, i: nat, ci: nat, a: nat): GameState
    requires i < |s.players| && ci < |s.players[i].hand| && a < |s.environmentStates|
  {
    var p := s.players[i];
    var env := s.environmentStates[a];
    var env1 := env.(cardsInPlay := AddToSlot(env.cardsInPlay, p.id, p.hand[ci]));
    SetPlayer(s, i, p.(hand := RemoveAt(p.hand, ci))).(environmentStates := s.environmentStates[a := env1])
  }

  function TakeItemAction(s: GameState, pid: string, payload: Payload): Step {
    if s.phase != Skirmish then Fail(s, WrongPhase, "Can only take items during skirmish phase")
    else if !IsCurrent(s, pid) then Fail(s, NotPlayerTurn, "It is not your turn")
    else
      var i: nat := s.currentPlayerIndex;
      var p := s.players[i];
      if p.hasPassed then Fail(s, InvalidMove, "You have already passed")
      else if |p.hand| == 0 then Fail(s, InsufficientCards, "Must have at least 1 card in hand to take an item")
      else if !Given(payload.itemId) then Fail(s, InvalidMove, "Item ID is required")
      else match ActiveIndex(s)
        case None => Fail(s, InvalidMove, "No active environment")
        case Some(a) =>
          var env := s.environmentStates[a];
          match FirstIndex(env.items, ItemId, payload.itemId.value)
          case None => Fail(s, ItemNotAvailable, "Item not available")
          case Some(ii) =>
            var item := env.items[ii];
            var cost := CostOf(item);
            if cost > 0 && (payload.discardedCardIds.None? || |payload.discardedCardIds.value| != cost) then
              Fail(s, InsufficientCards, "Must discard " + Images.NatToString(cost) + " cards to take this item")
            else if cost > 0 && !AllInHand(p.hand, payload.discardedCardIds.value) then
              Fail(s, InvalidMove, "Some discarded cards not found in hand")
            else
              var ids := if cost > 0 then payload.discardedCardIds.value else [];
              Emit([ItemTaken(pid, item, s.activeEnvironmentId)], NextTurn(Taken(s, i, a, ii, ids)))
  }

  /** The player's hand and discard pile after discarding the cards with the given ids. */
  function DiscardCards(p: Player, ids: seq<string>): Player {
    var d := DiscardByIds(p.hand, p.discardPile, ids);
    p.(hand := d.hand, discardPile := d.discard)
  }

  /** The update of a successful TAKE_ITEM, before the turn advances: the discards paid
      (none for a cost of 0), the item out of the environment and onto the player's used list. */
  function Taken(s: GameState, i: nat, a: nat, ii: nat, ids: seq<string>): GameState
    requires i < |s.players| && a < |s.environmentStates| && ii < |s.environmentStates[a].items|
  {
    var p := s.players[i];
    var env := s.environmentStates[a];
    var item := env.items[ii];
    var env1 := env.(items := RemoveAt(env.items, ii),
                     usedItems := env.usedItems[p.id := UsedBy(env.usedItems, p.id) + [item]]);
    SetPlayer(s, i, DiscardCards(p, ids)).(environmentStates := s.environmentStates[a := env1])
  }

  function PassAction(s: GameState, pid: string): Step {
    if s.phase != Skirmish then Fail(s, WrongPhase, "Can only pass during skirmish phase")
    else match FindPlayer(s, pid)
      case None => Fail(s, PlayerNotInGame, "Player not in game")
      case Some(i) =>
        var p := s.players[i];
        if p.hasPassed then Fail(s, InvalidMove, "You have already passed")
        else
          var s1 := Passed(s, i);
          Emit([PlayerPassed(pid)], if Scoring.ShouldEndSkirmish(s1.players) then EndSkirmish(s1) else NextTurn(s1))
  }

  /** The passing player is marked and their whole hand goes to the discard pile. */
  function Passed(s: GameState, i: nat): GameState
    requires i < |s.players|
  {
    var p := s.players[i];
    SetPlayer(s, i, p.(hasPassed := true, discardPile := p.discardPile + p.hand, hand := []))
  }

  /** Not atomic: the named cards are discarded before the limit is checked, and stay
      discarded when HAND_LIMIT_EXCEEDED is returned. */
  function DiscardToHandLimitAction(s: GameState, pid: string, payload: Payload): Step {
    match FindPlayer(s, pid)
    case None => Fail(s, PlayerNotInGame, "Player not in game")
    case Some(i) =>
      if payload.discardedCardIds.None? then Fail(s, InvalidMove, "Must specify cards to discard")
      else
        var s1 := SetPlayer(s, i, DiscardCards(s.players[i], payload.discardedCardIds.value));
        var limit := CardRules.EngineHandLimit(s.phase);
        if |s1.players[i].hand| > limit then
          Step(s1, [], Some(GameError(HandLimitExceeded, "Hand still exceeds limit of " + Images.NatToString(limit))))
        else Done(s1, [GameUpdated])
  }

  // ---------------------------------------------------------------- skirmish resolution

  /** `winningPlayer.skirmishesWon++`. */
  function CreditWin(s: GameState, pid: string): GameState {
    match FindPlayer(s, pid)
    case None => s
    case Some(j) => SetPlayer(s, j, s.players[j].(skirmishesWon := s.players[j].skirmishesWon + 1))
  }

  predicate WonEnough(s: GameState, pid: string) {
    match FindPlayer(s, pid)
    case None => false
    case Some(j) => s.players[j].skirmishesWon >= s.targetSkirmishes
  }

  function EndSkirmish(s: GameState): Step
    requires |s.players| > 0
  {
    match ActiveIndex(s)
    case None => Done(s, [])
    case Some(a) =>
      var scores := Scoring.CalculateScores(s.players, s.environmentStates[a].cardsInPlay);
      var winner := Scoring.DetermineWinner(scores);
      var s1 := if winner.Some? then CreditWin(s, winner.value.playerId) else s;
      var s2 := CleanupAfterSkirmish(s1, a);
      var ended := SkirmishEnded(s.activeEnvironmentId, Scoring.MarkWinner(scores), winner);
      if winner.Some? && WonEnough(s2, winner.value.playerId) then
        Emit([ended], EndGame(s2, Some(winner.value.playerId)))
      else Emit([ended], StartNextRound(s2))
  }

  function DiscardAllInPlay(players: seq<Player>, slots: seq<Slot>): (r: seq<Player>)
    ensures |r| == |players|
    ensures Ids(r) == Ids(players)
  {
    seq(|players|, i requires 0 <= i < |players| => DiscardInPlay(players[i], slots))
  }

  /** Each player's in-play cards at environment a go to their discard pile, and the
      environment's in-play table and items are cleared. Only when the environment deck is
      not empty is the environment replaced by the deck's first, given at most one item from
      the front of the item deck, and its prepared table re-keyed to the new id. */
  function CleanupAfterSkirmish(s: GameState, a: nat): GameState
    requires a < |s.environmentStates|
  {
    var env := s.environmentStates[a];
    var ps := DiscardAllInPlay(s.players, env.cardsInPlay);
    var cleared := env.(cardsInPlay := [], items := []);
    if |s.environmentDeck| == 0 then
      s.(players := ps, environmentStates := s.environmentStates[a := cleared])
    else
      var next := s.environmentDeck[0];
      var taken := if |s.itemDeck| > 0 then [s.itemDeck[0]] else [];
      var prep1 := s.preparedCards[next.id := EmptyLists(Ids(ps))];
      s.(players := ps,
         environmentStates := s.environmentStates[a := cleared.(environment := next, items := taken)],
         environmentDeck := s.environmentDeck[1..],
         itemDeck := s.itemDeck[|taken|..],
         preparedCards := match s.activeEnvironmentId case Some(ended) => prep1 - {ended} case None => prep1)
  }

  function TopUpAll(players: seq<Player>): (r: seq<Player>)
    ensures |r| == |players|
    ensures Ids(r) == Ids(players)
  {
    seq(|players|, i requires 0 <= i < |players| => TopUp(players[i]))
  }

  function StartNextRound(s: GameState): Step
    requires |s.players| > 0
  {
    var s1 := s.(phase := Handbuilding, activeEnvironmentId := None, skirmishInitiatorId := None,
                 players := TopUpAll(s.players));
    var next := NextTurn(s1);
    Done(next.state, next.emitted + [PhaseChanged(Handbuilding)])
  }

  // ---------------------------------------------------------------- dispatch and queries

  predicate ProcessDefined(s: GameState, action: Action) {
    action.actionType.InitiateSkirmish? ==> InitiateDefined(s, action.payload)
  }

  ghost function ProcessAction(s: GameState, action: Action): Step
    requires ProcessDefined(s, action)
  {
    var pid := action.playerId;
    if FindPlayer(s, pid).None? then Fail(s, PlayerNotInGame, "Player is not in this game")
    else
      var t := action.actionType;
      if t.ReadyUp? then SetPlayerReady(s, pid, true)
      else if t.PrepareCard? then PrepareCardAction(s, pid, action.payload)
      else if t.InitiateSkirmish? then InitiateSkirmishAction(s, pid, action.payload)
      else if t.PlayCard? then PlayCardAction(s, pid, action.payload)
      else if t.TakeItem? then TakeItemAction(s, pid, action.payload)
      else if t.Pass? then PassAction(s, pid)
      else if t.DiscardToHandLimit? then DiscardToHandLimitAction(s, pid, action.payload)
      else Fail(s, InvalidMove, "Invalid action type")
  }

  predicate CanPlayerAct(s: GameState, pid: string) {
    (s.phase == Handbuilding || s.phase == Skirmish) && IsCurrent(s, pid)
  }

  predicate IsGameFull(s: GameState) {
    |s.players| >= s.maxPlayers
  }
}
