/** The values the rules engine works on: cards, environments, items, players,
    the game state, actions, errors and events. */
module GameTypes {

  datatype Option<T> = None | Some(value: T)

  /** The seven card categories, in the order the hand sorter uses. */
  datatype CardType = Acolyte | Beast | Colossus | DivineGift | Electric | Fire | Water

  /** A card power or an item discard cost: a number, or the "?" sentinel. */
  datatype Value = Int(n: int) | Dynamic

  datatype Card = Card(id: string, title: string, cardType: CardType, power: Value, effect: string, image: string)

  datatype Environment = Environment(id: string, title: string, description: string, image: string)

  datatype ItemKind = Perk | Discard

  datatype Item = Item(id: string, title: string, kind: ItemKind, description: string, discardCost: Value, image: string)

  datatype Color = Black | Brown | Tan | White

  /** `color` is None when the join slot is past the end of the four-colour palette. */
  datatype Player = Player(
    id: string,
    name: string,
    color: Option<Color>,
    hand: seq<Card>,
    deck: seq<Card>,
    discardPile: seq<Card>,
    isReady: bool,
    isConnected: bool,
    skirmishesWon: nat,
    hasPassed: bool)

  /** One entry of an environment's cards-in-play table, keyed by player id.
      The table is a list so that it keeps key insertion order, as a JavaScript object does. */
  datatype Slot = Slot(playerId: string, cards: seq<Card>)

  datatype EnvironmentState = EnvironmentState(
    environment: Environment,
    items: seq<Item>,
    cardsInPlay: seq<Slot>,
    usedItems: map<string, seq<Item>>)

  datatype Phase = Setup | Handbuilding | Skirmish | Finished

  datatype GameState = GameState(
    id: string,
    players: seq<Player>,
    currentPlayerIndex: int,
    phase: Phase,
    preparedCards: map<string, map<string, seq<Card>>>,
    activeEnvironmentId: Option<string>,
    skirmishInitiatorId: Option<string>,
    environmentStates: seq<EnvironmentState>,
    turn: int,
    maxPlayers: int,
    targetSkirmishes: nat,
    environmentDeck: seq<Environment>,
    itemDeck: seq<Item>)

  datatype ErrorCode =
    | GameNotFound | GameFull | InvalidMove | NotPlayerTurn | PlayerNotInGame | WrongPhase
    | InsufficientCards | EnvironmentNotReady | HandLimitExceeded | CannotPlayCard | ItemNotAvailable

  datatype GameError = GameError(code: ErrorCode, message: string)

  /** The seven action names, and any other name a client may send. */
  datatype ActionType =
    | ReadyUp | PrepareCard | InitiateSkirmish | PlayCard | TakeItem | Pass | DiscardToHandLimit
    | Unknown(name: string)

  /** An absent payload is the payload whose fields are all None. */
  datatype Payload = Payload(
    cardId: Option<string>,
    environmentId: Option<string>,
    itemId: Option<string>,
    discardedCardIds: Option<seq<string>>)

  datatype Action = Action(actionType: ActionType, playerId: string, payload: Payload)

  datatype ScoreResult = ScoreResult(playerId: string, playerName: string, power: int, cardsInPlay: nat, isWinner: bool)

  datatype Standing = Standing(playerId: string, playerName: string, skirmishesWon: nat)

  /** Emitted events, without the game id, timestamp and state snapshots the source attaches. */
  datatype Event =
    | GameUpdated
    | PlayerJoined(player: Player)
    | PlayerLeft(player: Player)
    | PhaseChanged(phase: Phase)
    | CardPrepared(playerId: string, card: Card, environmentId: string)
    | SkirmishInitiated(environmentId: string, initiatorId: string)
    | CardPlayed(playerId: string, card: Card, activeEnvironmentId: Option<string>)
    | ItemTaken(playerId: string, item: Item, activeEnvironmentId: Option<string>)
    | PlayerPassed(playerId: string)
    | SkirmishEnded(endedEnvironmentId: Option<string>, scores: seq<ScoreResult>, winningScore: Option<ScoreResult>)
    | GameEnded(winningPlayer: Option<Player>, finalScores: seq<Standing>)

  /** A JavaScript string is truthy exactly when it is present and not empty. */
  predicate Given(s: Option<string>) {
    s.Some? && s.value != ""
  }

  /** The index of the first element whose key is `id` (Array.prototype.findIndex), or None. */
  function FirstIndex<T>(s: seq<T>, key: T -> string, id: string): (r: Option<nat>)
    ensures r.Some? ==> r.value < |s| && key(s[r.value]) == id
    ensures r.Some? ==> forall k :: 0 <= k < r.value ==> key(s[k]) != id
    ensures r.None? <==> forall k :: 0 <= k < |s| ==> key(s[k]) != id
  {
    if |s| == 0 then None
    else if key(s[0]) == id then Some(0)
    else match FirstIndex(s[1..], key, id)
      case None => None
      case Some(k) => Some(k + 1)
  }

  /** The first index is fixed by its two defining facts. */
  lemma FirstIndexAt<T>(s: seq<T>, key: T -> string, id: string, k: nat)
    requires k < |s| && key(s[k]) == id
    requires forall j :: 0 <= j < k ==> key(s[j]) != id
    ensures FirstIndex(s, key, id) == Some(k)
  {
    var r := FirstIndex(s, key, id);
    assert r.Some?;
    assert !(r.value < k);
  }

  /** The search looks only at the keys. */
  lemma FirstIndexSameKeys<T>(s: seq<T>, t: seq<T>, key: T -> string, id: string)
    requires |s| == |t| && forall j :: 0 <= j < |s| ==> key(s[j]) == key(t[j])
    ensures FirstIndex(s, key, id) == FirstIndex(t, key, id)
  {
    var r := FirstIndex(s, key, id);
    if r.Some? {
      FirstIndexAt(t, key, id, r.value);
    }
  }

  /** Appending an element only matters when nothing earlier matched. */
  lemma FirstIndexAppend<T>(s: seq<T>, x: T, key: T -> string, id: string)
    ensures FirstIndex(s + [x], key, id) ==
      if FirstIndex(s, key, id).Some? then FirstIndex(s, key, id)
      else if key(x) == id then Some(|s|) else None
  {
    var r := FirstIndex(s, key, id);
    if r.Some? {
      FirstIndexAt(s + [x], key, id, r.value);
    } else if key(x) == id {
      FirstIndexAt(s + [x], key, id, |s|);
    } else {
      assert forall k :: 0 <= k < |s + [x]| ==> key((s + [x])[k]) != id;
    }
  }

  function PlayerId(p: Player): string { p.id }
  function CardId(c: Card): string { c.id }
  function ItemId(i: Item): string { i.id }
  function EnvironmentStateId(e: EnvironmentState): string { e.environment.id }
  function SlotId(s: Slot): string { s.playerId }

  /** The sequence without its element at index i (Array.prototype.splice(i, 1)). */
  function RemoveAt<T>(s: seq<T>, i: nat): (r: seq<T>)
    requires i < |s|
    ensures |r| == |s| - 1
    ensures multiset(r) + multiset{s[i]} == multiset(s)
    ensures forall k :: 0 <= k < i ==> r[k] == s[k]
    ensures forall k :: i <= k < |r| ==> r[k] == s[k + 1]
  {
    assert s == s[..i] + [s[i]] + s[i + 1..];
    s[..i] + s[i + 1..]
  }
}
