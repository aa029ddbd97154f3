/** The static card tables, the deck constructors, the player colours and the
    Fisher-Yates shuffle. */
module CardData {
  import opened GameTypes
  import Images

  /** A player-card table row: everything but the id and the image. */
  datatype CardRow = CardRow(title: string, cardType: CardType, power: Value, effect: string)

  datatype EnvironmentRow = EnvironmentRow(title: string, description: string)

  datatype ItemRow = ItemRow(title: string, kind: ItemKind, discardCost: Value, description: string)

  const PLAYER_CARD_DATA: seq<CardRow> := [
      CardRow("Acolyte", Acolyte, Int(2),
        "If you have more Acolytes in play than each of your opponents, this card gets +3 power."),
      CardRow("Acolyte", Acolyte, Int(2),
        "If you have more Acolytes in play than each of your opponents, this card gets +3 power."),
      CardRow("Acolyte", Acolyte, Int(2),
        "If you have more Acolytes in play than each of your opponents, this card gets +3 power."),
      CardRow("Acolyte", Acolyte, Int(2),
        "If you have more Acolytes in play than each of your opponents, this card gets +3 power."),
      CardRow("Abduct", Beast, Int(2),
        "Take 1 card that is in play for an opponent, and put it face-down on top of your deck. The card you abducted is now part of your deck. You cannot Abduct an Item."),
      CardRow("Pillage", Beast, Int(2),
        "Choose a card type. Each of your opponents must discard a card of that type from their hand, or discard 2 cards from their hand of types other than the type you chose."),
      CardRow("Rampage", Beast, Int(2),
        "All of your opponents must discard cards from their hand until their hand size is equal to your hand size."),
      CardRow("Bluff", Colossus, Int(4),
        "If this card is in play when scoring a Skirmish, you may move it face-down to another Environment instead of scoring it."),
      CardRow("Channel Power", Colossus, Dynamic,
        "Find your opponent who has the most cards in play here. This card's power is equal to the number of cards that opponent has in play here. This card's power changes as opponents play more cards."),
      CardRow("Curse", Colossus, Int(-3),
        "When you play this card, you may play it in front of an opponent instead of playing it for yourself. It is in play for them, and becomes part of their deck."),
      CardRow("Heap", Colossus, Int(0),
        "Choose any amount of cards from your hand and from your cards in play here, and tuck them face-down under this card. The cards you chose are no longer in play. For each card you tucked, this card gains +2 Power."),
      CardRow("Manifest", Colossus, Int(1),
        "Immediately play another card from your hand, even if you are not allowed to play that card right now."),
      CardRow("Companionship", DivineGift, Int(0),
        "Draw 2 cards from your deck."),
      CardRow("Extrication", DivineGift, Int(0),
        "Choose 1 card that is in play for you and return it to your hand."),
      CardRow("Foresight", DivineGift, Int(0),
        "Look at the top 4 cards from your deck. Add 1 of them in your hand, and return the other 3 to the top of your deck in any order you choose."),
      CardRow("Replacements", DivineGift, Int(0),
        "Discard as many cards from your hand as you want. Then draw 1 card from your deck for every card you discarded."),
      CardRow("Solidarity", DivineGift, Int(0),
        "Choose 1 of the other Environments. Pick up all the cards you've prepared there, and add them to your hand."),
      CardRow("Spark", Electric, Int(1),
        "When anyone plays a DIVINE GIFT, before they resolve its effect: they must discard 1 card from their hand or from the cards they have in play for each ELECTRIC card in play here."),
      CardRow("Bolt", Electric, Int(4),
        "When anyone plays a DIVINE GIFT, before they resolve its effect: they must discard 1 card from their hand or from the cards they have in play for each ELECTRIC card in play here."),
      CardRow("Flame", Fire, Int(6),
        "When this card is in play, no one can play a BEAST card here."),
      CardRow("Inferno", Fire, Int(10),
        "When this card is in play, no one can play a BEAST card here."),
      CardRow("Droplet", Water, Int(1),
        "When this card is in play, it gives +2 Power to all ELECTRIC cards and -2 Power to all FIRE cards (card Power cannot go below 0)."),
      CardRow("Shower", Water, Int(3),
        "When this card is in play, it gives +2 Power to all ELECTRIC cards and -2 Power to all FIRE cards (card Power cannot go below 0)."),
      CardRow("Downpour", Water, Int(5),
        "When this card is in play, it gives +2 Power to all ELECTRIC cards and -2 Power to all FIRE cards (card Power cannot go below 0).")
    ]

  const ENVIRONMENT_DATA: seq<EnvironmentRow> := [
      EnvironmentRow("Badlands",
        "During Skirmishes here: when you play a BEAST card, your opponents must discard 1 extra card. You cannot play FIRE cards here."),
      EnvironmentRow("Blitz Creek",
        "During Skirmishes here, if you have 25 or more Power in play at the end of your turn, your opponents must discard all the cards in their hands."),
      EnvironmentRow("Cavern",
        "During Skirmishes here, if you have 5 or more cards in play when your turn starts, you must Pass."),
      EnvironmentRow("Chaos Fissure",
        "When you prepare a card here during Handbuilding: all opponents must also immediately prepare a card here. Then the player to your left takes their turn as usual. When a Skirmish starts here, shuffle all the cards prepared here together and deal them evenly."),
      EnvironmentRow("Desert",
        "During Skirmishes here, you cannot play WATER cards."),
      EnvironmentRow("Glass River",
        "All cards prepared here must be face-up rather than face-down."),
      EnvironmentRow("Graveyard",
        "When a Skirmish starts here, before the Initiator plays their first card, everyone searches their discard piles for Acolytes and immediately plays all Acolytes they find."),
      EnvironmentRow("Hallowed Ground",
        "During Skirmishes here, you can only play WATER, FIRE, and ELECTRIC cards if you have more ACOLYTES in play than your opponents."),
      EnvironmentRow("Impulse Isle",
        "During Skirmishes here, you will only have 1 turn. On your turn, continue to play cards 1 by 1 and resolve them as you play them until your hand is empty, or until you Pass. On your turn you may still take Items as usual. Beast cards have no effect here."),
      EnvironmentRow("Magnetic Maar",
        "You can never prepare cards here. At the start of your turn during the Handbuilding phase, if each player has a total of 7 or more cards prepared on the other 2 Environments: everyone must immediately move all their prepared cards here, and you must initiate a Skirmish here."),
      EnvironmentRow("Oasis",
        "When a Skirmish starts here, before the Initiator plays their first card, draw 3 cards if you have fewer cards prepared on this Environment than all of your opponents."),
      EnvironmentRow("Outskirts",
        "You may Initiate a Skirmish here, even if there are no cards prepared here. However, you can only Initiate a Skirmish here if an opponent has won more Skirmishes than you."),
      EnvironmentRow("Poison Swamp",
        "After you prepare a card here in the Handbuilding phase, discard the other 2 cards from your hand, then draw back up to 3 cards."),
      EnvironmentRow("Sacrifice Mountain",
        "At the start of your first turn during Skirmishes here: choose 2 cards from your hand and put them on the top of any opponent's deck. Those cards are now part of their deck."),
      EnvironmentRow("Stockpile Steppe",
        "When this is drawn, place 3 Items face-down here. When a Skirmish starts here, flip all 3 Items face-up."),
      EnvironmentRow("The Brink",
        "When preparing a card here during the Handbuilding phase, you must immediately prepare all 3 cards from your hand here, and draw 3 cards from your deck. Then, discard 1 card that an opponent has prepared here."),
      EnvironmentRow("The Sticks",
        "Every time you play a FIRE card here during a Skirmish, discard 1 card in play here that is not a FIRE card."),
      EnvironmentRow("Volcano",
        "After passing during Skirmishes here, discard all cards remaining in your hand instead of moving those cards to other Environments."),
      EnvironmentRow("Zenith",
        "When a Skirmish starts here: draw 3 cards if you are 2 or more Skirmishes away from winning the game. There is no hand limit here.")
    ]

  const ITEM_DATA: seq<ItemRow> := [
      ItemRow("Boiler", Perk, Int(1),
        "WATER cards here give your FIRE cards here +2 instead of -2 Power."),
      ItemRow("Colossus Coil", Perk, Int(1),
        "+2 Power for all of your ELECTRIC cards here."),
      ItemRow("Divine Icon", Perk, Int(1),
        "+1 Power for all of your DIVINE GIFT cards here."),
      ItemRow("Ebenezer", Perk, Dynamic,
        "Discard your entire hand. This card gives you +10 Power."),
      ItemRow("Edible Carnage", Perk, Int(1),
        "+2 Power for all of your BEAST cards here."),
      ItemRow("Oil", Perk, Int(1),
        "+2 Power for all of your FIRE cards here."),
      ItemRow("Orb", Perk, Int(1),
        "+2 Power for all of your COLOSSUS cards here."),
      ItemRow("Pointier Sticks", Perk, Int(1),
        "+2 Power for all of your ACOLYTE cards here."),
      ItemRow("Turbine", Perk, Int(1),
        "+2 Power for all of your WATER cards here."),
      ItemRow("Wager", Perk, Int(0),
        "Guess aloud who will win this Skirmish. If you are correct: draw 2 cards from your deck and prepare them on the next Environment drawn. If you are wrong, discard all of your prepared cards everywhere."),
      ItemRow("Alms", Discard, Int(1),
        "If you discarded the last card in your hand to take this, draw 3 cards. Otherwise, draw nothing."),
      ItemRow("Cache", Discard, Int(1),
        "Pass, and flip up to 3 of your cards in play here face-down. Those cards are no longer in play, and are prepared for the next Environment drawn here."),
      ItemRow("Caravan", Discard, Int(1),
        "Move up to 3 of your cards in play here to other Environments."),
      ItemRow("Cloak", Discard, Int(0),
        "Place a card face-down here, and do not reveal it until scoring. It is not in play until you reveal it. If you reveal a WATER, FIRE, ELECTRIC, or ACOLYTE card, include it when scoring this Skirmish. Otherwise, discard it and do not resolve its effect."),
      ItemRow("Cyclone", Discard, Int(0),
        "Pick up all Items on all Environments and put each of them on any of the 3 Environments (each Environment can still only have a maximum of 3 Items)."),
      ItemRow("Dice", Discard, Int(0),
        "Draw a random card from the middle of your deck and show it to everyone. If it is a DIVINE GIFT, ACOLYTE, or COLOSSUS, keep it in your hand and draw 2 more cards. Otherwise, discard your entire hand (including the new card you drew)."),
      ItemRow("Divine Mirror", Discard, Int(1),
        "Copy the effect of any DIVINE GIFT in play here. Ignore any ELECTRIC cards in play when you do this."),
      ItemRow("Divine Totem", Discard, Int(1),
        "Immediately play a DIVINE GIFT from your hand, and resolve its effect twice."),
      ItemRow("Hatchet", Discard, Int(0),
        "Discard 1 Item on any Environment, or 1 Perk Item that is already in play for another player."),
      ItemRow("Lockpick", Discard, Int(2),
        "Look at the top card of each players' deck. Place 1 of them on top of your deck, and return any others to the decks they came from."),
      ItemRow("Looking Glass", Discard, Int(1),
        "Choose an opponent. They must show their entire hand to you."),
      ItemRow("Loot Chest", Discard, Int(1),
        "Draw 3 Items. You may immediately play any of these items for free if it has a discard cost of 0 or 1. Discard any of the 3 Items you don't play."),
      ItemRow("Magnet", Discard, Int(0),
        "Take an Item from 1 of the other 2 Environments and play it here immediately (you must still pay its discard cost)."),
      ItemRow("Olive Branch", Discard, Int(2),
        "For each Beast card you discarded to take this, draw 2 cards."),
      ItemRow("Poison Pill", Discard, Dynamic,
        "Discard any number of cards from your hand (must be more than 0). Each of your opponents must immediately discard the same number of cards from their hands."),
      ItemRow("Rallying Banner", Discard, Int(1),
        "Search your deck for an ACOLYTE. If you find one, play it immediately (limit to just 1 ACOLYTE). Shuffle your deck."),
      ItemRow("Recycler", Discard, Int(1),
        "Choose an Item from the Item discard pile that has a discard cost of 0 or 1. Play it immediately for free."),
      ItemRow("Secret Tunnel Keys", Discard, Int(1),
        "Immediately play a BEAST card, even if there are FIRE cards in play here."),
      ItemRow("Shrine", Discard, Int(1),
        "Choose 1 card from your discard pile and prepare it on either of the other 2 Environments."),
      ItemRow("Terraformer", Discard, Int(1),
        "Discard both of the non-active Environments where you are not currently Skirmishing, and replace them with the top Environments from the deck. Any Items should remain on the next Environments drawn.")
    ]

  // ---------------------------------------------------------------- facts about the tables

  /** The printed table: 4 Acolytes, 3 Beasts, 5 Colossi, 5 Divine Gifts, 2 Electric, 2 Fire and
      3 Water cards, in that order. */
  lemma PlayerCardTableLayout()
    ensures |PLAYER_CARD_DATA| == 24
    ensures forall i :: 0 <= i < 24 ==> (PLAYER_CARD_DATA[i].cardType == Acolyte <==> i < 4)
    ensures forall i :: 0 <= i < 24 ==> (PLAYER_CARD_DATA[i].cardType == Beast <==> 4 <= i < 7)
    ensures forall i :: 0 <= i < 24 ==> (PLAYER_CARD_DATA[i].cardType == Colossus <==> 7 <= i < 12)
    ensures forall i :: 0 <= i < 24 ==> (PLAYER_CARD_DATA[i].cardType == DivineGift <==> 12 <= i < 17)
    ensures forall i :: 0 <= i < 24 ==> (PLAYER_CARD_DATA[i].cardType == Electric <==> 17 <= i < 19)
    ensures forall i :: 0 <= i < 24 ==> (PLAYER_CARD_DATA[i].cardType == Fire <==> 19 <= i < 21)
    ensures forall i :: 0 <= i < 24 ==> (PLAYER_CARD_DATA[i].cardType == Water <==> 21 <= i < 24)
  {
  }

  /** Channel Power is the only "?" power, Curse (-3) the only negative one; every Acolyte has
      power 2, the Fire cards have 6 and 10, the Water cards 1, 3 and 5. */
  lemma PlayerCardPowers()
    ensures forall i :: 0 <= i < |PLAYER_CARD_DATA| ==>
      (PLAYER_CARD_DATA[i].power == Dynamic <==> PLAYER_CARD_DATA[i].title == "Channel Power")
    ensures forall i :: 0 <= i < |PLAYER_CARD_DATA| && PLAYER_CARD_DATA[i].power.Int? ==>
      (PLAYER_CARD_DATA[i].power.n < 0 <==> PLAYER_CARD_DATA[i].title == "Curse")
    ensures PLAYER_CARD_DATA[9].title == "Curse" && PLAYER_CARD_DATA[9].power == Int(-3)
    ensures forall i :: 0 <= i < |PLAYER_CARD_DATA| && PLAYER_CARD_DATA[i].cardType == Acolyte ==>
      PLAYER_CARD_DATA[i].power == Int(2)
    ensures PLAYER_CARD_DATA[19].power == Int(6) && PLAYER_CARD_DATA[20].power == Int(10)
    ensures PLAYER_CARD_DATA[21].power == Int(1) && PLAYER_CARD_DATA[22].power == Int(3)
      && PLAYER_CARD_DATA[23].power == Int(5)
  {
  }

  /** Nineteen environments and thirty items (ten Perks, then twenty Discard items). */
  lemma TableSizes()
    ensures |ENVIRONMENT_DATA| == 19 && |ITEM_DATA| == 30
    ensures forall i :: 0 <= i < 30 ==> (ITEM_DATA[i].kind == Perk <==> i < 10)
  {
  }

  /** Every discard cost is 0, 1, 2 or "?", and only Ebenezer and Poison Pill use "?". */
  lemma ItemCosts()
    ensures forall i :: 0 <= i < |ITEM_DATA| && ITEM_DATA[i].discardCost.Int? ==>
      0 <= ITEM_DATA[i].discardCost.n <= 2
    ensures forall i :: 0 <= i < |ITEM_DATA| ==>
      (ITEM_DATA[i].discardCost == Dynamic <==>
        ITEM_DATA[i].title == "Ebenezer" || ITEM_DATA[i].title == "Poison Pill")
  {
  }

  // ---------------------------------------------------------------- colours

  const PLAYER_COLORS: seq<Color> := [Black, Brown, Tan, White]

  function ColorName(c: Color): string {
    match c
    case Black => "black"
    case Brown => "brown"
    case Tan => "tan"
    case White => "white"
  }

  /** The four colours, all different, in the order black, brown, tan, white. */
  lemma PlayerColorsDistinct()
    ensures |PLAYER_COLORS| == 4
    ensures forall i, j :: 0 <= i < j < |PLAYER_COLORS| ==> PLAYER_COLORS[i] != PLAYER_COLORS[j]
    ensures forall i, j :: 0 <= i < j < |PLAYER_COLORS| ==>
      ColorName(PLAYER_COLORS[i]) != ColorName(PLAYER_COLORS[j])
    ensures ColorName(PLAYER_COLORS[0]) == "black" && ColorName(PLAYER_COLORS[3]) == "white"
  {
  }

  /** The colour a new player gets from the number of seated players; past the palette it is
      undefined in the source, None here. */
  function JoinColor(seated: nat): (c: Option<Color>)
    ensures c.Some? <==> seated < |PLAYER_COLORS|
    ensures c.Some? ==> c.value == PLAYER_COLORS[seated]
  {
    if seated < |PLAYER_COLORS| then Some(PLAYER_COLORS[seated]) else None
  }

  // ---------------------------------------------------------------- decks

  /** `getCardImagePath`. */
  function GetCardImagePath(card: Card): string {
    Images.PlayerCardImagePath(card.title)
  }

  ghost predicate Injective(newId: nat -> string) {
    forall a: nat, b: nat :: a != b ==> newId(a) != newId(b)
  }

  /** One player card per table row; `newId(i)` stands for the fresh id of row i. */
  function CreatePlayerDeck(newId: nat -> string): (deck: seq<Card>)
    ensures |deck| == |PLAYER_CARD_DATA| == 24
    ensures forall i :: 0 <= i < |deck| ==>
      && deck[i].id == newId(i)
      && deck[i].title == PLAYER_CARD_DATA[i].title
      && deck[i].cardType == PLAYER_CARD_DATA[i].cardType
      && deck[i].power == PLAYER_CARD_DATA[i].power
      && deck[i].effect == PLAYER_CARD_DATA[i].effect
      && deck[i].image == GetCardImagePath(deck[i])
    ensures Injective(newId) ==> forall i, j :: 0 <= i < j < |deck| ==> deck[i].id != deck[j].id
  {
    seq(|PLAYER_CARD_DATA|, i requires 0 <= i < |PLAYER_CARD_DATA| =>
      var row := PLAYER_CARD_DATA[i];
      Card(newId(i), row.title, row.cardType, row.power, row.effect, Images.PlayerCardImagePath(row.title)))
  }

  function CreateEnvironmentDeck(newId: nat -> string): (deck: seq<Environment>)
    ensures |deck| == |ENVIRONMENT_DATA| == 19
    ensures forall i :: 0 <= i < |deck| ==>
      && deck[i].id == newId(i)
      && deck[i].title == ENVIRONMENT_DATA[i].title
      && deck[i].description == ENVIRONMENT_DATA[i].description
      && deck[i].image == Images.EnvironmentImagePath(deck[i].title)
    ensures Injective(newId) ==> forall i, j :: 0 <= i < j < |deck| ==> deck[i].id != deck[j].id
  {
    seq(|ENVIRONMENT_DATA|, i requires 0 <= i < |ENVIRONMENT_DATA| =>
      var row := ENVIRONMENT_DATA[i];
      Environment(newId(i), row.title, row.description, Images.EnvironmentImagePath(row.title)))
  }

  function CreateItemDeck(newId: nat -> string): (deck: seq<Item>)
    ensures |deck| == |ITEM_DATA| == 30
    ensures forall i :: 0 <= i < |deck| ==>
      && deck[i].id == newId(i)
      && deck[i].title == ITEM_DATA[i].title
      && deck[i].kind == ITEM_DATA[i].kind
      && deck[i].discardCost == ITEM_DATA[i].discardCost
      && deck[i].description == ITEM_DATA[i].description
      && deck[i].image == Images.ItemImagePath(deck[i].title)
    ensures Injective(newId) ==> forall i, j :: 0 <= i < j < |deck| ==> deck[i].id != deck[j].id
  {
    seq(|ITEM_DATA|, i requires 0 <= i < |ITEM_DATA| =>
      var row := ITEM_DATA[i];
      Item(newId(i), row.title, row.kind, row.description, row.discardCost, Images.ItemImagePath(row.title)))
  }

  // ---------------------------------------------------------------- shuffling

  /** `s` with the elements at i and j exchanged. */
  function Swap<T>(s: seq<T>, i: nat, j: nat): (r: seq<T>)
    requires i < |s| && j < |s|
    ensures |r| == |s|
  {
    s[i := s[j]][j := s[i]]
  }

  lemma SwapIsPermutation<T>(s: seq<T>, i: nat, j: nat)
    requires i < |s| && j < |s|
    ensures multiset(Swap(s, i, j)) == multiset(s)
  {
  }

  /** The index the oracle picks at step i, always in 0..i (`Math.floor(Math.random() * (i + 1))`). */
  function Pick(random: nat -> nat, i: nat): (j: nat)
    ensures j <= i
  {
    random(i) % (i + 1)
  }

  /** The swaps of steps i, i - 1, ..., 1, done in that order. */
  function ShuffleFrom<T>(s: seq<T>, i: nat, random: nat -> nat): (r: seq<T>)
    requires i < |s|
    ensures |r| == |s|
    decreases i
  {
    if i == 0 then s else ShuffleFrom(Swap(s, i, Pick(random, i)), i - 1, random)
  }

  lemma {:induction false} ShuffleFromIsPermutation<T>(s: seq<T>, i: nat, random: nat -> nat)
    requires i < |s|
    ensures multiset(ShuffleFrom(s, i, random)) == multiset(s)
    decreases i
  {
    if i > 0 {
      var t := Swap(s, i, Pick(random, i));
      SwapIsPermutation(s, i, Pick(random, i));
      ShuffleFromIsPermutation(t, i - 1, random);
    }
  }

  /** The order a Fisher-Yates pass with the given oracle produces. */
  function Shuffled<T>(s: seq<T>, random: nat -> nat): seq<T> {
    if s == [] then [] else ShuffleFrom(s, |s| - 1, random)
  }

  /** A shuffle is a permutation: same length and same elements with the same multiplicities. */
  lemma ShuffledIsPermutation<T>(s: seq<T>, random: nat -> nat)
    ensures |Shuffled(s, random)| == |s|
    ensures multiset(Shuffled(s, random)) == multiset(s)
  {
    if s != [] {
      ShuffleFromIsPermutation(s, |s| - 1, random);
    }
  }

  /** With an oracle that always picks the step's own index, no swap moves anything. */
  lemma {:induction false} IdentityOracleKeepsOrder<T>(s: seq<T>, i: nat, random: nat -> nat)
    requires i < |s|
    requires forall k: nat :: k <= i ==> random(k) == k
    ensures ShuffleFrom(s, i, random) == s
  {
    if i > 0 {
      assert Pick(random, i) == i;
      assert Swap(s, i, i) == s;
      IdentityOracleKeepsOrder(s, i - 1, random);
    }
  }

  /** `shuffleArray`: a copy of the input, then swaps of i and a picked j <= i for i from the
      last index down to 1. The input sequence itself is a value and stays as it was. */
  method ShuffleArray<T>(input: seq<T>, random: nat -> nat) returns (shuffled: seq<T>)
    ensures shuffled == Shuffled(input, random)
    ensures |shuffled| == |input| && multiset(shuffled) == multiset(input)
  {
    ShuffledIsPermutation(input, random);
    if |input| == 0 {
      return [];
    }
    var a := new T[|input|](k requires 0 <= k < |input| => input[k]);
    assert a[..] == input;
    var i := a.Length - 1;
    while i > 0
      invariant 0 <= i < a.Length
      invariant ShuffleFrom(a[..], i, random) == Shuffled(input, random)
      decreases i
    {
      var j := Pick(random, i);
      SwapStep(a, i, j);
      i := i - 1;
    }
    shuffled := a[..];
  }

  method SwapStep<T>(a: array<T>, i: nat, j: nat)
    requires i < a.Length && j < a.Length
    modifies a
    ensures a[..] == Swap(old(a[..]), i, j)
  {
    a[i], a[j] := a[j], a[i];
  }
}
