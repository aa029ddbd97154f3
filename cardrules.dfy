/** The card rules: type filters, the effective-power calculation, the
    legality check, drawing, the hand sorter, hand limits and the
    prepared-card threshold for starting a skirmish. */
module CardRules {
  import opened GameTypes

  const HANDBUILDING_HAND_LIMIT: nat := 3
  const SKIRMISH_HAND_LIMIT: nat := 10
  const SKIRMISH_THRESHOLD: nat := 8

  // ---------------------------------------------------------------- filters

  /** `cards.filter(c => c.type === t)`. */
  function CardsByType(cards: seq<Card>, t: CardType): (r: seq<Card>)
    ensures forall i :: 0 <= i < |r| ==> r[i].cardType == t
    ensures forall c :: multiset(r)[c] == if c.cardType == t then multiset(cards)[c] else 0
  {
    if cards == [] then []
    else
      assert cards == [cards[0]] + cards[1..];
      (if cards[0].cardType == t then [cards[0]] else []) + CardsByType(cards[1..], t)
  }

  function CountCardsByType(cards: seq<Card>, t: CardType): nat {
    |CardsByType(cards, t)|
  }

  /** `cards.some(c => c.type === t)`. */
  predicate HasCardType(cards: seq<Card>, t: CardType) {
    exists i :: 0 <= i < |cards| && cards[i].cardType == t
  }

  lemma HasCardTypeIffCount(cards: seq<Card>, t: CardType)
    ensures HasCardType(cards, t) <==> CountCardsByType(cards, t) > 0
  {
    var r := CardsByType(cards, t);
    if HasCardType(cards, t) {
      var i :| 0 <= i < |cards| && cards[i].cardType == t;
      assert multiset(cards)[cards[i]] > 0;
      assert multiset(r)[cards[i]] > 0;
    }
    if |r| > 0 {
      assert multiset(r)[r[0]] > 0;
      assert r[0] in multiset(cards);
      var i :| 0 <= i < |cards| && cards[i] == r[0];
    }
  }

  /** Counting by type distributes over concatenation of card lists. */
  lemma CountAppend(a: seq<Card>, b: seq<Card>, t: CardType)
    ensures CountCardsByType(a + b, t) == CountCardsByType(a, t) + CountCardsByType(b, t)
  {
    var ra, rb, rab := CardsByType(a, t), CardsByType(b, t), CardsByType(a + b, t);
    assert multiset(rab) == multiset(ra) + multiset(rb) by {
      forall c ensures multiset(rab)[c] == (multiset(ra) + multiset(rb))[c] {
        assert multiset(a + b) == multiset(a) + multiset(b);
      }
    }
    assert |multiset(rab)| == |multiset(ra)| + |multiset(rb)|;
  }

  // ---------------------------------------------------------------- power

  /** `Math.max(...lists.map(l => l.length))`; None stands for -Infinity, the maximum of no numbers. */
  function MaxCount(lists: seq<seq<Card>>): (r: Option<nat>)
    ensures r.None? <==> lists == []
    ensures r.Some? ==> forall i :: 0 <= i < |lists| ==> |lists[i]| <= r.value
    ensures r.Some? ==> exists i :: 0 <= i < |lists| && |lists[i]| == r.value
  {
    if lists == [] then None
    else match MaxCount(lists[1..])
      case None => Some(|lists[0]|)
      case Some(m) =>
        assert forall i :: 1 <= i < |lists| ==> |lists[i]| == |lists[1..][i - 1]|;
        Some(if |lists[0]| >= m then |lists[0]| else m)
  }

  /** The power before modifiers. A "?" card titled "Channel Power" takes the largest
      opponent in-play count; every other "?" card takes 0. */
  function BasePower(card: Card, opponentCardsInPlay: seq<seq<Card>>): Option<int> {
    match card.power
    case Int(n) => Some(n)
    case Dynamic =>
      if card.title == "Channel Power" then
        match MaxCount(opponentCardsInPlay)
        case None => None
        case Some(m) => Some(m)
      else Some(0)
  }

  /** Each Water card in play gives +2 to an Electric card and -2 to a Fire card. */
  function WaterModifier(card: Card, allCardsInPlay: seq<Card>): int {
    var w := CountCardsByType(allCardsInPlay, Water);
    if w > 0 && card.cardType == Electric then 2 * w
    else if w > 0 && card.cardType == Fire then -2 * w
    else 0
  }

  /** The owner has strictly more Acolytes in play than each opponent. */
  predicate AcolyteMajority(playerCardsInPlay: seq<Card>, opponentCardsInPlay: seq<seq<Card>>) {
    forall i :: 0 <= i < |opponentCardsInPlay| ==>
      CountCardsByType(playerCardsInPlay, Acolyte) > CountCardsByType(opponentCardsInPlay[i], Acolyte)
  }

  /** The effective power of a card in play, clamped at zero. */
  function CalculateCardPower(card: Card, allCardsInPlay: seq<Card>, playerCardsInPlay: seq<Card>,
                              opponentCardsInPlay: seq<seq<Card>>): (r: int)
    ensures r >= 0
  {
    match BasePower(card, opponentCardsInPlay)
    case None => 0  // -Infinity stays -Infinity under the modifiers, and Math.max(0, -Infinity) is 0
    case Some(base) =>
      var afterWater := base + WaterModifier(card, allCardsInPlay);
      var finalPower :=
        if card.cardType == Acolyte && AcolyteMajority(playerCardsInPlay, opponentCardsInPlay)
        then afterWater + 3 else afterWater;
      if finalPower > 0 then finalPower else 0
  }

  function Clamp(n: int): int { if n > 0 then n else 0 }

  /** With w Water cards in play, a numbered Electric card gains 2w and a numbered Fire card loses 2w. */
  lemma WaterEffect(card: Card, all: seq<Card>, mine: seq<Card>, opp: seq<seq<Card>>)
    requires card.power.Int?
    ensures var w := CountCardsByType(all, Water);
      && (card.cardType == Electric ==> CalculateCardPower(card, all, mine, opp) == Clamp(card.power.n + 2 * w))
      && (card.cardType == Fire ==> CalculateCardPower(card, all, mine, opp) == Clamp(card.power.n - 2 * w))
  {
  }

  /** Water changes no card other than Electric and Fire ones: such a card's power
      does not depend on the pool of cards in play. */
  lemma WaterIgnoresOtherTypes(card: Card, all1: seq<Card>, all2: seq<Card>, mine: seq<Card>, opp: seq<seq<Card>>)
    requires card.cardType != Electric && card.cardType != Fire
    ensures CalculateCardPower(card, all1, mine, opp) == CalculateCardPower(card, all2, mine, opp)
  {
  }

  /** A numbered card that no modifier touches (Beast, Colossus, Divine Gift, Water) scores its
      printed power, or 0 when that is negative (Curse's -3 scores 0). */
  lemma PlainCardPower(card: Card, all: seq<Card>, mine: seq<Card>, opp: seq<seq<Card>>)
    requires card.power.Int? && card.cardType != Electric && card.cardType != Fire && card.cardType != Acolyte
    ensures CalculateCardPower(card, all, mine, opp) == Clamp(card.power.n)
  {
  }

  /** More Water never raises a Fire card and never lowers an Electric card. */
  lemma WaterMonotone(card: Card, all1: seq<Card>, all2: seq<Card>, mine: seq<Card>, opp: seq<seq<Card>>)
    requires CountCardsByType(all1, Water) <= CountCardsByType(all2, Water)
    ensures card.cardType == Fire ==> CalculateCardPower(card, all2, mine, opp) <= CalculateCardPower(card, all1, mine, opp)
    ensures card.cardType == Electric ==> CalculateCardPower(card, all1, mine, opp) <= CalculateCardPower(card, all2, mine, opp)
  {
  }

  /** A numbered Acolyte gains +3 exactly when its owner out-numbers every opponent in Acolytes:
      a tie with any opponent loses the bonus, and with no opponents it always applies. */
  lemma AcolyteBonus(card: Card, all: seq<Card>, mine: seq<Card>, opp: seq<seq<Card>>)
    requires card.cardType == Acolyte && card.power.Int?
    ensures CalculateCardPower(card, all, mine, opp) ==
      Clamp(card.power.n + (if AcolyteMajority(mine, opp) then 3 else 0))
    ensures opp == [] ==> CalculateCardPower(card, all, mine, opp) == Clamp(card.power.n + 3)
    ensures (exists i :: 0 <= i < |opp| && CountCardsByType(opp[i], Acolyte) == CountCardsByType(mine, Acolyte))
      ==> CalculateCardPower(card, all, mine, opp) == Clamp(card.power.n)
  {
  }

  /** "Channel Power" counts the largest opponent presence; any other "?" card counts 0. */
  lemma DynamicBase(card: Card, opp: seq<seq<Card>>)
    requires card.power == Dynamic
    ensures card.title != "Channel Power" ==> BasePower(card, opp) == Some(0)
    ensures card.title == "Channel Power" && opp != [] ==>
      BasePower(card, opp).Some? && BasePower(card, opp).value >= 0
      && (forall i :: 0 <= i < |opp| ==> |opp[i]| <= BasePower(card, opp).value)
      && (exists i :: 0 <= i < |opp| && |opp[i]| == BasePower(card, opp).value)
    ensures card.title == "Channel Power" && opp == [] ==> BasePower(card, opp) == None
  {
  }

  /** A "Channel Power" card of a type no modifier touches has exactly the largest opponent
      in-play count as its power, and 0 when there are no opponents. */
  lemma ChannelPowerValue(card: Card, all: seq<Card>, mine: seq<Card>, opp: seq<seq<Card>>)
    requires card.power == Dynamic && card.title == "Channel Power" && card.cardType == Colossus
    ensures opp == [] ==> CalculateCardPower(card, all, mine, opp) == 0
    ensures opp != [] ==> CalculateCardPower(card, all, mine, opp) == MaxCount(opp).value
  {
  }

  /** Three Water cards against a power-6 Fire card leave it at 0, not at a negative number. */
  lemma ThreeWatersQuenchFlame(fire: Card, all: seq<Card>, mine: seq<Card>, opp: seq<seq<Card>>)
    requires fire.cardType == Fire && fire.power == Int(6)
    requires CountCardsByType(all, Water) == 3
    ensures CalculateCardPower(fire, all, mine, opp) == 0
  {
  }

  /** A power-2 Acolyte whose owner has 2 Acolytes in play against an opponent with 1 scores 5. */
  lemma AcolyteMajorityScoresFive(acolyte: Card, all: seq<Card>, mine: seq<Card>, opponent: seq<Card>)
    requires acolyte.cardType == Acolyte && acolyte.power == Int(2)
    requires CountCardsByType(mine, Acolyte) == 2 && CountCardsByType(opponent, Acolyte) == 1
    ensures CalculateCardPower(acolyte, all, mine, [opponent]) == 5
  {
  }

  /** The sum of the effective powers of `cards` (a reduce from the left). */
  function PowerSum(cards: seq<Card>, all: seq<Card>, mine: seq<Card>, opp: seq<seq<Card>>): (r: int)
    ensures r >= 0
    ensures cards == [] ==> r == 0
  {
    if cards == [] then 0
    else PowerSum(cards[..|cards| - 1], all, mine, opp) + CalculateCardPower(cards[|cards| - 1], all, mine, opp)
  }

  /** A player's score: every card of theirs in play, each powered in the same board context. */
  function TotalPlayerPower(playerCards: seq<Card>, allCardsInPlay: seq<Card>, opponentCardsInPlay: seq<seq<Card>>): (r: int)
    ensures r >= 0
    ensures playerCards == [] ==> r == 0
  {
    PowerSum(playerCards, allCardsInPlay, playerCards, opponentCardsInPlay)
  }

  /** Every card contributes its own non-negative power, so the total is at least any one card's power. */
  lemma {:induction false} PowerSumBoundsEachCard(cards: seq<Card>, all: seq<Card>, mine: seq<Card>, opp: seq<seq<Card>>, k: nat)
    requires k < |cards|
    ensures CalculateCardPower(cards[k], all, mine, opp) <= PowerSum(cards, all, mine, opp)
  {
    var n := |cards| - 1;
    if k < n {
      assert cards[..n][k] == cards[k];
      PowerSumBoundsEachCard(cards[..n], all, mine, opp, k);
    }
  }

  // ---------------------------------------------------------------- legality

  /** Whether an environment's own rule lets a card type be played there. Only Badlands and
      Desert restrict anything; Hallowed Ground and every other title allow every type. */
  predicate EnvironmentAllows(environmentTitle: string, t: CardType) {
    if environmentTitle == "Badlands" then t != Fire
    else if environmentTitle == "Desert" then t != Water
    else true
  }

  /** Fire in play blocks Beasts; then the environment's own rule applies. */
  predicate CanPlayCard(card: Card, environmentTitle: string, allCardsInPlay: seq<Card>) {
    if card.cardType == Beast && CountCardsByType(allCardsInPlay, Fire) > 0 then false
    else EnvironmentAllows(environmentTitle, card.cardType)
  }

  /** The three forbidden situations, and nothing else, make a card unplayable. */
  lemma CanPlayCardExactly(card: Card, title: string, all: seq<Card>)
    ensures CanPlayCard(card, title, all) <==>
      && !(card.cardType == Beast && HasCardType(all, Fire))
      && !(title == "Badlands" && card.cardType == Fire)
      && !(title == "Desert" && card.cardType == Water)
  {
    HasCardTypeIffCount(all, Fire);
  }

  /** Hallowed Ground adds no restriction of its own. */
  lemma HallowedGroundIsUnrestricted(card: Card, title: string, all: seq<Card>)
    requires title == "Hallowed Ground"
    ensures CanPlayCard(card, title, all) <==> !(card.cardType == Beast && HasCardType(all, Fire))
  {
    CanPlayCardExactly(card, title, all);
  }

  // ---------------------------------------------------------------- drawing

  datatype Draw = Draw(drawnCards: seq<Card>, remainingDeck: seq<Card>)

  /** The first `count` cards of the deck, and the rest. */
  function DrawCards(deck: seq<Card>, count: nat): (r: Draw)
    ensures r.drawnCards + r.remainingDeck == deck
    ensures |r.drawnCards| == if count < |deck| then count else |deck|
  {
    if count < |deck| then Draw(deck[..count], deck[count..]) else Draw(deck, [])
  }

  // ---------------------------------------------------------------- hand limits and threshold

  predicate ValidateHandLimit(hand: seq<Card>, phase: Phase) {
    if phase == Handbuilding then |hand| <= HANDBUILDING_HAND_LIMIT
    else if phase == Skirmish then |hand| <= SKIRMISH_HAND_LIMIT
    else true
  }

  /** The limit the engine's DISCARD_TO_HAND_LIMIT applies: 3 in handbuilding, 10 in any other phase. */
  function EngineHandLimit(phase: Phase): nat {
    if phase == Handbuilding then HANDBUILDING_HAND_LIMIT else SKIRMISH_HAND_LIMIT
  }

  /** In the two playing phases, the utility check and the engine's limit agree; in setup and
      finished the utility accepts any hand while the engine still applies 10. */
  lemma HandLimitsAgree(hand: seq<Card>, phase: Phase)
    ensures phase == Handbuilding || phase == Skirmish ==>
      (ValidateHandLimit(hand, phase) <==> |hand| <= EngineHandLimit(phase))
    ensures phase == Setup || phase == Finished ==> ValidateHandLimit(hand, phase)
  {
  }

  /** The total length of the lists in a player-keyed table. */
  ghost function SumLengths(m: map<string, seq<Card>>): nat
    decreases |m|
  {
    if m == map[] then 0
    else
      var k :| k in m;
      |m[k]| + SumLengths(m - {k})
  }

  /** SumLengths does not depend on which key it takes first. */
  lemma {:induction false} SumLengthsRemove(m: map<string, seq<Card>>, k: string)
    requires k in m
    ensures SumLengths(m) == |m[k]| + SumLengths(m - {k})
    decreases |m|
  {
    var j :| j in m && SumLengths(m) == |m[j]| + SumLengths(m - {j});
    if j != k {
      SumLengthsRemove(m - {j}, k);
      SumLengthsRemove(m - {k}, j);
      assert (m - {j}) - {k} == (m - {k}) - {j};
    }
  }

  lemma SumLengthsUpdate(m: map<string, seq<Card>>, k: string, v: seq<Card>)
    requires k in m
    ensures SumLengths(m[k := v]) + |m[k]| == SumLengths(m) + |v|
  {
    SumLengthsRemove(m, k);
    SumLengthsRemove(m[k := v], k);
    assert m[k := v] - {k} == m - {k};
  }

  lemma {:induction false} SumLengthsOfEmptyLists(m: map<string, seq<Card>>)
    requires forall k :: k in m ==> m[k] == []
    ensures SumLengths(m) == 0
    decreases |m|
  {
    if m != map[] {
      var k :| k in m;
      SumLengthsRemove(m, k);
      SumLengthsOfEmptyLists(m - {k});
    }
  }

  /** `Object.values(prepared).reduce((t, l) => t + l.length, 0)`. */
  method GetTotalPreparedCards(prepared: map<string, seq<Card>>) returns (total: nat)
    ensures total == SumLengths(prepared)
  {
    total := 0;
    var rest := prepared;
    while rest != map[]
      invariant total + SumLengths(rest) == SumLengths(prepared)
      decreases |rest|
    {
      var k :| k in rest;
      SumLengthsRemove(rest, k);
      total := total + |rest[k]|;
      rest := rest - {k};
    }
  }

  method CanInitiateSkirmish(prepared: map<string, seq<Card>>) returns (ok: bool)
    ensures ok <==> SumLengths(prepared) >= SKIRMISH_THRESHOLD
  {
    var total := GetTotalPreparedCards(prepared);
    ok := total >= SKIRMISH_THRESHOLD;
  }

  // ---------------------------------------------------------------- sorting

  /** The position of a type in the fixed order Acolyte, Beast, Colossus, Divine Gift, Electric, Fire, Water. */
  function TypeRank(t: CardType): nat {
    match t
    case Acolyte => 0
    case Beast => 1
    case Colossus => 2
    case DivineGift => 3
    case Electric => 4
    case Fire => 5
    case Water => 6
  }

  /** Titles compared character by character. */
  predicate TitleLeq(a: string, b: string) {
    a == [] || (b != [] && (a[0] < b[0] || (a[0] == b[0] && TitleLeq(a[1..], b[1..]))))
  }

  lemma {:induction false} TitleLeqTotal(a: string, b: string)
    ensures TitleLeq(a, b) || TitleLeq(b, a)
  {
    if a != [] && b != [] && a[0] == b[0] {
      TitleLeqTotal(a[1..], b[1..]);
    }
  }

  predicate CardLeq(a: Card, b: Card) {
    TypeRank(a.cardType) < TypeRank(b.cardType)
    || (TypeRank(a.cardType) == TypeRank(b.cardType) && TitleLeq(a.title, b.title))
  }

  predicate SortedByTypeThenTitle(s: seq<Card>) {
    forall i :: 0 < i < |s| ==> CardLeq(s[i - 1], s[i])
  }

  /** Places `c` before the first card it does not come after, so that it stays ahead of equal cards. */
  function Insert(c: Card, s: seq<Card>): (r: seq<Card>)
    requires SortedByTypeThenTitle(s)
    ensures SortedByTypeThenTitle(r)
    ensures multiset(r) == multiset(s) + multiset{c}
    ensures r[0] == c || (s != [] && r[0] == s[0])
  {
    if s == [] then [c]
    else if CardLeq(c, s[0]) then [c] + s
    else
      TitleLeqTotal(c.title, s[0].title);
      assert s == [s[0]] + s[1..];
      [s[0]] + Insert(c, s[1..])
  }

  /** `[...hand].sort(byTypeThenTitle)`: a new, sorted permutation of the hand. */
  function SortHandByType(hand: seq<Card>): (r: seq<Card>)
    ensures SortedByTypeThenTitle(r)
    ensures multiset(r) == multiset(hand)
  {
    if hand == [] then []
    else
      assert hand == [hand[0]] + hand[1..];
      Insert(hand[0], SortHandByType(hand[1..]))
  }

  /** In a sorted hand every card of a type earlier in the order precedes every card of a later type. */
  lemma {:induction false} SortedGroupsByType(s: seq<Card>, i: nat, j: nat)
    requires SortedByTypeThenTitle(s)
    requires i <= j < |s|
    ensures TypeRank(s[i].cardType) <= TypeRank(s[j].cardType)
    decreases j - i
  {
    if i < j {
      SortedGroupsByType(s, i, j - 1);
      assert CardLeq(s[j - 1], s[j]);
    }
  }
}
