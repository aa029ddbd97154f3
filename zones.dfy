/** Where a player's cards are: hand, deck and discard pile on the player record,
    prepared lists in `preparedCards`, and in-play lists in each environment's
    `cardsInPlay`. `Holdings` gathers them all, and `Valid` is the invariant of
    the game state that the engine keeps. */
module Zones {
  import opened GameTypes
  import CardRules

  // ---------------------------------------------------------------- lookups

  /** `cardsInPlay[q] || []`. */
  function SlotCards(slots: seq<Slot>, q: string): seq<Card> {
    match FirstIndex(slots, SlotId, q)
    case None => []
    case Some(i) => slots[i].cards
  }

  /** `preparedCards[e][q]`, or no cards when either key is missing. */
  function PreparedList(prep: map<string, map<string, seq<Card>>>, e: string, q: string): seq<Card> {
    if e in prep && q in prep[e] then prep[e][q] else []
  }

  function Ids(players: seq<Player>): (r: seq<string>)
    ensures |r| == |players| && forall i :: 0 <= i < |players| ==> r[i] == players[i].id
  {
    seq(|players|, i requires 0 <= i < |players| => players[i].id)
  }

  function StateIds(envs: seq<EnvironmentState>): (r: seq<string>)
    ensures |r| == |envs| && forall i :: 0 <= i < |envs| ==> r[i] == envs[i].environment.id
  {
    seq(|envs|, i requires 0 <= i < |envs| => envs[i].environment.id)
  }

  function DeckIds(deck: seq<Environment>): (r: seq<string>)
    ensures |r| == |deck| && forall i :: 0 <= i < |deck| ==> r[i] == deck[i].id
  {
    seq(|deck|, i requires 0 <= i < |deck| => deck[i].id)
  }

  function SlotIds(slots: seq<Slot>): (r: seq<string>)
    ensures |r| == |slots| && forall i :: 0 <= i < |slots| ==> r[i] == slots[i].playerId
  {
    seq(|slots|, i requires 0 <= i < |slots| => slots[i].playerId)
  }

  predicate Distinct(xs: seq<string>) {
    forall i, j :: 0 <= i < j < |xs| ==> xs[i] != xs[j]
  }

  // ---------------------------------------------------------------- holdings

  function Own(p: Player): multiset<Card> {
    multiset(p.hand) + multiset(p.deck) + multiset(p.discardPile)
  }

  function OwnIf(p: Player, q: string): multiset<Card> {
    if p.id == q then Own(p) else multiset{}
  }

  /** The hands, decks and discard piles of the players whose id is q. */
  function OwnedBy(players: seq<Player>, q: string): multiset<Card> {
    if players == [] then multiset{} else OwnIf(players[0], q) + OwnedBy(players[1..], q)
  }

  /** q's prepared cards and in-play cards at one environment. */
  function EnvAt(prep: map<string, map<string, seq<Card>>>, es: EnvironmentState, q: string): multiset<Card> {
    multiset(PreparedList(prep, es.environment.id, q)) + multiset(SlotCards(es.cardsInPlay, q))
  }

  function EnvHoldings(envs: seq<EnvironmentState>, prep: map<string, map<string, seq<Card>>>, q: string): multiset<Card> {
    if envs == [] then multiset{} else EnvAt(prep, envs[0], q) + EnvHoldings(envs[1..], prep, q)
  }

  /** Every card player q has anywhere in the game. */
  function Holdings(s: GameState, q: string): multiset<Card> {
    OwnedBy(s.players, q) + EnvHoldings(s.environmentStates, s.preparedCards, q)
  }

  /** No card of a player who is in the game both before and after was created or destroyed. */
  predicate Conserves(s: GameState, t: GameState) {
    forall q :: q in Ids(s.players) && q in Ids(t.players) ==> Holdings(t, q) == Holdings(s, q)
  }

  // ---------------------------------------------------------------- sums over players

  lemma {:induction false} OwnedByAppend(a: seq<Player>, b: seq<Player>, q: string)
    ensures OwnedBy(a + b, q) == OwnedBy(a, q) + OwnedBy(b, q)
  {
    if a != [] {
      assert (a + b)[1..] == a[1..] + b;
      OwnedByAppend(a[1..], b, q);
    } else {
      assert a + b == b;
    }
  }

  /** Two player lists that agree, player by player, on what q owns. */
  lemma {:induction false} OwnedByPointwise(ps: seq<Player>, ts: seq<Player>, q: string)
    requires |ps| == |ts|
    requires forall i :: 0 <= i < |ps| ==> OwnIf(ts[i], q) == OwnIf(ps[i], q)
    ensures OwnedBy(ts, q) == OwnedBy(ps, q)
  {
    if ps != [] {
      assert OwnIf(ts[0], q) == OwnIf(ps[0], q);
      OwnedByPointwise(ps[1..], ts[1..], q);
    }
  }

  lemma PlusSwap(a: multiset<Card>, b: multiset<Card>, c: multiset<Card>)
    ensures (a + b) + c == (c + b) + a
  {
    forall o ensures ((a + b) + c)[o] == ((c + b) + a)[o] { }
  }

  lemma PlusShift(a: multiset<Card>, b: multiset<Card>, c: multiset<Card>, x: multiset<Card>, y: multiset<Card>)
    requires b + x == c + y
    ensures (a + b) + x == (a + c) + y
  {
    forall o ensures ((a + b) + x)[o] == ((a + c) + y)[o] {
      assert (b + x)[o] == (c + y)[o];
    }
  }

  /** Changing what q owns at one position changes the sum by exactly that much. */
  lemma {:induction false} OwnedByAt(ps: seq<Player>, ts: seq<Player>, k: nat, q: string)
    requires |ps| == |ts| && k < |ps|
    requires forall i :: 0 <= i < |ps| && i != k ==> OwnIf(ts[i], q) == OwnIf(ps[i], q)
    ensures OwnedBy(ts, q) + OwnIf(ps[k], q) == OwnedBy(ps, q) + OwnIf(ts[k], q)
  {
    if k == 0 {
      OwnedByPointwise(ps[1..], ts[1..], q);
      PlusSwap(OwnIf(ts[0], q), OwnedBy(ts[1..], q), OwnIf(ps[0], q));
    } else {
      assert OwnIf(ts[0], q) == OwnIf(ps[0], q);
      assert ps[1..][k - 1] == ps[k] && ts[1..][k - 1] == ts[k];
      OwnedByAt(ps[1..], ts[1..], k - 1, q);
      PlusShift(OwnIf(ps[0], q), OwnedBy(ts[1..], q), OwnedBy(ps[1..], q), OwnIf(ps[k], q), OwnIf(ts[k], q));
    }
  }

  /** A player list whose ids are all different from q owns nothing of q's. */
  lemma {:induction false} OwnedByAbsent(ps: seq<Player>, q: string)
    requires q !in Ids(ps)
    ensures OwnedBy(ps, q) == multiset{}
  {
    if ps != [] {
      assert Ids(ps)[0] == ps[0].id;
      assert Ids(ps[1..]) == Ids(ps)[1..];
      OwnedByAbsent(ps[1..], q);
    }
  }

  /** With distinct ids, what q owns is the hand, deck and discard pile of the one player with id q. */
  lemma {:induction false} OwnedByOne(ps: seq<Player>, k: nat, q: string)
    requires Distinct(Ids(ps)) && k < |ps| && ps[k].id == q
    ensures OwnedBy(ps, q) == Own(ps[k])
  {
    assert Ids(ps[1..]) == Ids(ps)[1..];
    if k == 0 {
      assert q !in Ids(ps[1..]) by {
        forall i | 0 <= i < |ps| - 1 ensures Ids(ps[1..])[i] != q {
          assert Ids(ps)[0] != Ids(ps)[i + 1];
        }
      }
      OwnedByAbsent(ps[1..], q);
    } else {
      assert Ids(ps)[0] != Ids(ps)[k];
      OwnedByOne(ps[1..], k - 1, q);
    }
  }

  /** A player list that gains X for q at q's position (ids distinct and unchanged). */
  lemma OwnedByGain(ps: seq<Player>, ts: seq<Player>, q: string, x: multiset<Card>)
    requires |ps| == |ts| && Distinct(Ids(ps))
    requires forall i :: 0 <= i < |ps| ==> ts[i].id == ps[i].id
    requires forall i :: 0 <= i < |ps| && ps[i].id == q ==> Own(ts[i]) == Own(ps[i]) + x
    ensures OwnedBy(ts, q) == OwnedBy(ps, q) + (if q in Ids(ps) then x else multiset{})
  {
    if q in Ids(ps) {
      var k :| 0 <= k < |ps| && Ids(ps)[k] == q;
      assert Ids(ts) == Ids(ps);
      OwnedByOne(ps, k, q);
      OwnedByOne(ts, k, q);
    } else {
      assert Ids(ts) == Ids(ps);
      OwnedByAbsent(ps, q);
      OwnedByAbsent(ts, q);
    }
  }

  // ---------------------------------------------------------------- sums over environments

  lemma {:induction false} EnvHoldingsAppend(a: seq<EnvironmentState>, b: seq<EnvironmentState>,
                                             prep: map<string, map<string, seq<Card>>>, q: string)
    ensures EnvHoldings(a + b, prep, q) == EnvHoldings(a, prep, q) + EnvHoldings(b, prep, q)
  {
    if a != [] {
      assert (a + b)[1..] == a[1..] + b;
      EnvHoldingsAppend(a[1..], b, prep, q);
    } else {
      assert a + b == b;
    }
  }

  lemma {:induction false} EnvHoldingsPointwise(es: seq<EnvironmentState>, p1: map<string, map<string, seq<Card>>>,
                                                ts: seq<EnvironmentState>, p2: map<string, map<string, seq<Card>>>, q: string)
    requires |es| == |ts|
    requires forall i :: 0 <= i < |es| ==> EnvAt(p2, ts[i], q) == EnvAt(p1, es[i], q)
    ensures EnvHoldings(ts, p2, q) == EnvHoldings(es, p1, q)
  {
    if es != [] {
      assert EnvAt(p2, ts[0], q) == EnvAt(p1, es[0], q);
      EnvHoldingsPointwise(es[1..], p1, ts[1..], p2, q);
    }
  }

  lemma {:induction false} EnvHoldingsAt(es: seq<EnvironmentState>, p1: map<string, map<string, seq<Card>>>,
                      ts: seq<EnvironmentState>, p2: map<string, map<string, seq<Card>>>, k: nat, q: string)
    requires |es| == |ts| && k < |es|
    requires forall i :: 0 <= i < |es| && i != k ==> EnvAt(p2, ts[i], q) == EnvAt(p1, es[i], q)
    ensures EnvHoldings(ts, p2, q) + EnvAt(p1, es[k], q) == EnvHoldings(es, p1, q) + EnvAt(p2, ts[k], q)
  {
    if k == 0 {
      EnvHoldingsPointwise(es[1..], p1, ts[1..], p2, q);
      PlusSwap(EnvAt(p2, ts[0], q), EnvHoldings(ts[1..], p2, q), EnvAt(p1, es[0], q));
    } else {
      assert EnvAt(p2, ts[0], q) == EnvAt(p1, es[0], q);
      assert es[1..][k - 1] == es[k] && ts[1..][k - 1] == ts[k];
      EnvHoldingsAt(es[1..], p1, ts[1..], p2, k - 1, q);
      PlusShift(EnvAt(p1, es[0], q), EnvHoldings(ts[1..], p2, q), EnvHoldings(es[1..], p1, q),
                EnvAt(p1, es[k], q), EnvAt(p2, ts[k], q));
    }
  }

  // ---------------------------------------------------------------- the state invariant

  /** Every prepared list at environment e is empty. */
  predicate AllEmptyAt(prep: map<string, map<string, seq<Card>>>, e: string) {
    e in prep && forall q :: q in prep[e] ==> prep[e][q] == []
  }

  ghost predicate PreparedKeysMatch(s: GameState) {
    && (forall e :: e in s.preparedCards <==> e in StateIds(s.environmentStates))
    && (forall e :: e in s.preparedCards ==> forall q :: q in s.preparedCards[e] <==> q in Ids(s.players))
  }

  /** The hand a player holds in each phase: none before the game starts, within
      `validateHandLimit` while handbuilding (3) and in a skirmish (10), and none once the
      player has passed in a skirmish, since passing discards the whole hand. */
  predicate HandFits(phase: Phase, p: Player) {
    && CardRules.ValidateHandLimit(p.hand, phase)
    && (phase == Setup ==> p.hand == [])
    && (phase == Skirmish && p.hasPassed ==> p.hand == [])
  }

  /** The invariant the engine maintains. */
  ghost predicate Valid(s: GameState) {
    && 0 <= s.currentPlayerIndex
    && (|s.players| > 0 ==> s.currentPlayerIndex < |s.players|)
    && (|s.players| == 0 ==> s.currentPlayerIndex == 0)
    && Distinct(Ids(s.players))
    && Distinct(StateIds(s.environmentStates) + DeckIds(s.environmentDeck))
    && PreparedKeysMatch(s)
    && (forall i :: 0 <= i < |s.environmentStates| ==> Distinct(SlotIds(s.environmentStates[i].cardsInPlay)))
    && (forall i {:trigger HandFits(s.phase, s.players[i])} :: 0 <= i < |s.players| ==> HandFits(s.phase, s.players[i]))
    && (s.phase == Handbuilding || s.phase == Skirmish ==> |s.players| >= 2)
    && (s.phase == Skirmish ==>
          && s.activeEnvironmentId.Some?
          && s.activeEnvironmentId.value in StateIds(s.environmentStates)
          && AllEmptyAt(s.preparedCards, s.activeEnvironmentId.value))
  }

  /** The current player exists whenever a player exists. */
  lemma ValidCurrentPlayer(s: GameState)
    requires Valid(s) && |s.players| > 0
    ensures 0 <= s.currentPlayerIndex < |s.players|
  {
  }

  /** In a valid state each player id is held by the one player found for it. */
  lemma FoundPlayerIsUnique(s: GameState, k: nat)
    requires Valid(s) && k < |s.players|
    ensures FirstIndex(s.players, PlayerId, s.players[k].id) == Some(k)
  {
    var r := FirstIndex(s.players, PlayerId, s.players[k].id);
    assert PlayerId(s.players[k]) == s.players[k].id;
    assert r.Some? && r.value <= k;
    assert Ids(s.players)[r.value] == Ids(s.players)[k];
  }
}
