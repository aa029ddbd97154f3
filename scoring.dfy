/** Skirmish resolution: the per-player scores at the active environment, the
    winner's choice (power first, then number of cards in play, then player
    order), the end-of-skirmish test and the final standings. */
module Scoring {
  import opened GameTypes
  import CardRules
  import opened Zones

  /** `Object.values(cardsInPlay).flat()`, in key insertion order. */
  function AllCardsInPlay(slots: seq<Slot>): seq<Card> {
    if slots == [] then [] else slots[0].cards + AllCardsInPlay(slots[1..])
  }

  /** Each player's in-play cards are among all the cards in play. */
  lemma {:induction false} SlotCardsAreInPlay(slots: seq<Slot>, q: string)
    ensures multiset(SlotCards(slots, q)) <= multiset(AllCardsInPlay(slots))
  {
    if slots != [] {
      SlotCardsAreInPlay(slots[1..], q);
      if slots[0].playerId != q {
        assert SlotCards(slots, q) == SlotCards(slots[1..], q);
      }
    }
  }

  /** Every player's in-play list at an environment, in seating order. */
  function CardsBySeat(players: seq<Player>, slots: seq<Slot>): (r: seq<seq<Card>>)
    ensures |r| == |players| && forall k :: 0 <= k < |players| ==> r[k] == SlotCards(slots, players[k].id)
  {
    seq(|players|, k requires 0 <= k < |players| => SlotCards(slots, players[k].id))
  }

  /** The in-play lists of every other player, in player order (`filter` then `map`). */
  function OpponentCards(players: seq<Player>, slots: seq<Slot>, q: string): (r: seq<seq<Card>>)
    ensures |r| <= |players|
    ensures q !in Ids(players) ==> |r| == |players|
  {
    if players == [] then []
    else
      assert Ids(players[1..]) == Ids(players)[1..];
      (if players[0].id != q then [SlotCards(slots, players[0].id)] else []) + OpponentCards(players[1..], slots, q)
  }

  /** When q holds no seat, the opponents' lists are every seat's list, in seating order. */
  lemma {:induction false} OpponentsOfUnseated(players: seq<Player>, slots: seq<Slot>, q: string)
    requires q !in Ids(players)
    ensures OpponentCards(players, slots, q) == CardsBySeat(players, slots)
  {
    if players != [] {
      assert Ids(players[1..]) == Ids(players)[1..];
      assert Ids(players)[0] == players[0].id;
      OpponentsOfUnseated(players[1..], slots, q);
      assert CardsBySeat(players, slots) == [SlotCards(slots, players[0].id)] + CardsBySeat(players[1..], slots);
    }
  }

  /** When q holds seat k (and ids are distinct), the opponents' lists are every seat's list
      except q's own, in seating order. */
  lemma {:induction false} OpponentsOfSeated(players: seq<Player>, slots: seq<Slot>, k: nat)
    requires k < |players| && Distinct(Ids(players))
    ensures OpponentCards(players, slots, players[k].id) == RemoveAt(CardsBySeat(players, slots), k)
  {
    var q := players[k].id;
    var tail := players[1..];
    var all := CardsBySeat(players, slots);
    assert Ids(tail) == Ids(players)[1..];
    assert all == [all[0]] + CardsBySeat(tail, slots);
    RemoveAtCons(all[0], CardsBySeat(tail, slots), k);
    if k == 0 {
      OpponentsOfFirst(players, slots);
    } else {
      assert players[0].id != q by {
        assert Ids(players)[0] != Ids(players)[k];
      }
      assert OpponentCards(players, slots, q) == [all[0]] + OpponentCards(tail, slots, q);
      assert Distinct(Ids(tail)) by {
        forall a, b | 0 <= a < b < |tail| ensures Ids(tail)[a] != Ids(tail)[b] {
          assert Ids(players)[a + 1] != Ids(players)[b + 1];
        }
      }
      assert tail[k - 1] == players[k];
      OpponentsOfSeated(tail, slots, k - 1);
    }
  }

  /** The first seat's opponents are the seats after it. */
  lemma OpponentsOfFirst(players: seq<Player>, slots: seq<Slot>)
    requires |players| > 0 && Distinct(Ids(players))
    ensures OpponentCards(players, slots, players[0].id) == CardsBySeat(players[1..], slots)
  {
    var q := players[0].id;
    var tail := players[1..];
    forall j | 0 <= j < |tail| ensures Ids(tail)[j] != q {
      assert Ids(players)[j + 1] != Ids(players)[0];
    }
    assert OpponentCards(players, slots, q) == OpponentCards(tail, slots, q);
    OpponentsOfUnseated(tail, slots, q);
  }

  lemma RemoveAtCons<T>(x: T, t: seq<T>, k: nat)
    requires k <= |t|
    ensures RemoveAt([x] + t, k) == if k == 0 then t else [x] + RemoveAt(t, k - 1)
  {
    if k == 0 {
      assert RemoveAt([x] + t, 0) == t;
    } else {
      assert RemoveAt([x] + t, k) == [x] + RemoveAt(t, k - 1);
    }
  }

  /** One score line; the winner flag is set later. */
  function ScoreOf(players: seq<Player>, p: Player, slots: seq<Slot>): ScoreResult {
    var mine := SlotCards(slots, p.id);
    ScoreResult(p.id, p.name,
      CardRules.TotalPlayerPower(mine, AllCardsInPlay(slots), OpponentCards(players, slots, p.id)),
      |mine|, false)
  }

  function CalculateScores(players: seq<Player>, slots: seq<Slot>): (r: seq<ScoreResult>)
    ensures |r| == |players|
    ensures forall i :: 0 <= i < |r| ==>
      && r[i].playerId == players[i].id
      && r[i].playerName == players[i].name
      && r[i].power >= 0
      && r[i].power == CardRules.TotalPlayerPower(SlotCards(slots, players[i].id), AllCardsInPlay(slots),
                                                  OpponentCards(players, slots, players[i].id))
      && r[i].cardsInPlay == |SlotCards(slots, players[i].id)|
      && (r[i].cardsInPlay == 0 ==> r[i].power == 0)
      && !r[i].isWinner
  {
    seq(|players|, i requires 0 <= i < |players| => ScoreOf(players, players[i], slots))
  }

  /** a sorts strictly before b: more power, or equal power and more cards in play. */
  predicate Beats(a: ScoreResult, b: ScoreResult) {
    a.power > b.power || (a.power == b.power && a.cardsInPlay > b.cardsInPlay)
  }

  /** The index of the first score of a stable descending sort: a score no other score beats,
      and that beats every score before it. */
  function WinnerIndex(scores: seq<ScoreResult>): (r: Option<nat>)
    ensures r.None? <==> scores == []
    ensures r.Some? ==> r.value < |scores|
    ensures r.Some? ==> forall j :: 0 <= j < |scores| ==> !Beats(scores[j], scores[r.value])
    ensures r.Some? ==> forall j :: 0 <= j < r.value ==> Beats(scores[r.value], scores[j])
  {
    if scores == [] then None
    else
      var last := |scores| - 1;
      match WinnerIndex(scores[..last])
      case None => Some(0)
      case Some(w) =>
        assert forall j :: 0 <= j < last ==> scores[..last][j] == scores[j];
        if Beats(scores[last], scores[w]) then Some(last) else Some(w)
  }

  /** `determineWinner`: the chosen score with its winner flag set, or None for no scores. */
  function DetermineWinner(scores: seq<ScoreResult>): (r: Option<ScoreResult>)
    ensures r.None? <==> scores == []
    ensures r.Some? ==> r.value.isWinner
    ensures r.Some? ==> exists w :: 0 <= w < |scores| && r.value == scores[w].(isWinner := true)
    ensures r.Some? ==> forall j :: 0 <= j < |scores| ==>
      scores[j].power <= r.value.power
      && (scores[j].power == r.value.power ==> scores[j].cardsInPlay <= r.value.cardsInPlay)
  {
    match WinnerIndex(scores)
    case None => None
    case Some(w) => Some(scores[w].(isWinner := true))
  }

  /** The scores as emitted: the same line objects, so the winner's line carries the flag too. */
  function MarkWinner(scores: seq<ScoreResult>): (r: seq<ScoreResult>)
    ensures |r| == |scores|
    ensures forall i :: 0 <= i < |r| ==> r[i].(isWinner := scores[i].isWinner) == scores[i]
    ensures forall i :: 0 <= i < |r| ==> (r[i].isWinner <==> scores[i].isWinner || WinnerIndex(scores) == Some(i))
  {
    match WinnerIndex(scores)
    case None => scores
    case Some(w) => scores[w := scores[w].(isWinner := true)]
  }

  /** A tie in both power and cards in play goes to the first player in order. */
  lemma FullTieGoesToFirst(scores: seq<ScoreResult>)
    requires scores != []
    requires forall i :: 0 <= i < |scores| ==>
      scores[i].power == scores[0].power && scores[i].cardsInPlay == scores[0].cardsInPlay
    ensures WinnerIndex(scores) == Some(0)
  {
    assert !Beats(scores[WinnerIndex(scores).value], scores[0]);
  }

  /** Every player has passed or holds no cards. */
  predicate ShouldEndSkirmish(players: seq<Player>) {
    forall i :: 0 <= i < |players| ==> players[i].hasPassed || players[i].hand == []
  }

  function Standings(players: seq<Player>): (r: seq<Standing>)
    ensures |r| == |players|
    ensures forall i :: 0 <= i < |r| ==>
      r[i] == Standing(players[i].id, players[i].name, players[i].skirmishesWon)
  {
    seq(|players|, i requires 0 <= i < |players| => Standing(players[i].id, players[i].name, players[i].skirmishesWon))
  }
}
