/**
 * CardDeck: the three-pile deck of ability cards. The draw pile, the hand and
 * the discard pile are lists updated in place; the top of the draw pile is its
 * last element. Every operation keeps the multiset of all cards across the
 * three piles, and the Fisher-Yates shuffle is proved against a pure
 * specification of its swap sequence.
 */
module CardDeck {
  import opened Wrappers
  import opened SystemRandom

  /** A card asset; the deck only compares cards, so a card is its identity. */
  datatype CardData = CardData(id: nat)

  /** The pile with the entries at `i` and `j` exchanged (C#'s tuple swap). */
  function Swap(pile: seq<CardData>, i: nat, j: nat): (r: seq<CardData>)
    requires i < |pile| && j < |pile|
    ensures |r| == |pile| && r[i] == pile[j] && r[j] == pile[i]
    ensures forall k :: 0 <= k < |pile| && k != i && k != j ==> r[k] == pile[k]
  {
    pile[i := pile[j]][j := pile[i]]
  }

  /** A swap keeps the cards of the pile. */
  lemma SwapPermutes(pile: seq<CardData>, i: nat, j: nat)
    requires i < |pile| && j < |pile|
    ensures multiset(Swap(pile, i, j)) == multiset(pile)
  {
  }

  /**
   * The shuffle loop from position `i` down to 1: swap position `i` with a
   * position drawn below `i + 1`, then continue with `i - 1`.
   */
  function ShuffleFrom(pile: seq<CardData>, i: int, rng: Rng): (r: (seq<CardData>, Rng))
    requires -1 <= i < |pile|
    ensures |r.0| == |pile|
    decreases i
  {
    if i <= 0 then
      (pile, rng)
    else
      var (swapIndex, after) := Next(rng, i + 1);
      ShuffleFrom(Swap(pile, i, swapIndex), i - 1, after)
  }

  /** Shuffling a whole pile: the loop starts at its last position. */
  function Shuffled(pile: seq<CardData>, rng: Rng): (r: (seq<CardData>, Rng))
    ensures |r.0| == |pile|
  {
    ShuffleFrom(pile, |pile| - 1, rng)
  }

  /** The shuffle is a permutation of its input. */
  lemma {:induction false} ShufflePermutes(pile: seq<CardData>, i: int, rng: Rng)
    requires -1 <= i < |pile|
    ensures multiset(ShuffleFrom(pile, i, rng).0) == multiset(pile)
    decreases i
  {
    if i > 0 {
      var (swapIndex, after) := Next(rng, i + 1);
      assert ShuffleFrom(pile, i, rng) == ShuffleFrom(Swap(pile, i, swapIndex), i - 1, after);
      SwapPermutes(pile, i, swapIndex);
      ShufflePermutes(Swap(pile, i, swapIndex), i - 1, after);
    }
  }

  /** The shuffle from position `i` leaves the positions above `i` alone. */
  lemma {:induction false} ShuffleKeepsAbove(pile: seq<CardData>, i: int, rng: Rng)
    requires 0 <= i < |pile|
    ensures ShuffleFrom(pile, i, rng).0[i + 1..] == pile[i + 1..]
    decreases i
  {
    if i > 0 {
      var (swapIndex, after) := Next(rng, i + 1);
      var swapped := Swap(pile, i, swapIndex);
      var r := ShuffleFrom(swapped, i - 1, after).0;
      assert ShuffleFrom(pile, i, rng).0 == r;
      ShuffleKeepsAbove(swapped, i - 1, after);
      assert r[i + 1..] == r[i..][1..];
      assert swapped[i + 1..] == pile[i + 1..];
    }
  }

  /** The shuffle makes exactly one draw per position from `i` down to 1, each bounded by `Next`. */
  lemma {:induction false} ShuffleDraws(pile: seq<CardData>, i: int, rng: Rng)
    requires -1 <= i < |pile|
    ensures var r := ShuffleFrom(pile, i, rng);
      r.1.stream == rng.stream && r.1.used == rng.used + (if i > 0 then i else 0)
    decreases i
  {
    if i > 0 {
      var (swapIndex, after) := Next(rng, i + 1);
      ShuffleDraws(Swap(pile, i, swapIndex), i - 1, after);
    }
  }

  /** The sequence in reverse order. */
  function Reversed(s: seq<CardData>): (r: seq<CardData>)
    ensures |r| == |s|
    ensures forall k :: 0 <= k < |s| ==> r[k] == s[|s| - 1 - k]
  {
    if s == [] then [] else Reversed(s[1..]) + [s[0]]
  }

  /** List.IndexOf: the first position holding `card`, or -1 when there is none. */
  function IndexOf(s: seq<CardData>, card: CardData): (k: int)
    ensures -1 <= k < |s|
    ensures k < 0 <==> card !in s
    ensures k >= 0 ==> s[k] == card && card !in s[..k]
  {
    if s == [] then -1
    else if s[0] == card then 0
    else
      var rest := IndexOf(s[1..], card);
      if rest < 0 then -1 else rest + 1
  }

  /** The list with the entry at `k` removed (List.RemoveAt). */
  function RemoveAt(s: seq<CardData>, k: nat): (r: seq<CardData>)
    requires k < |s|
    ensures |r| == |s| - 1
    ensures forall i :: 0 <= i < k ==> r[i] == s[i]
    ensures forall i :: k <= i < |r| ==> r[i] == s[i + 1]
    ensures multiset(r) + multiset{s[k]} == multiset(s)
  {
    assert s == s[..k] + [s[k]] + s[k + 1..];
    s[..k] + s[k + 1..]
  }

  /** The deck's changing state: the three piles and the generator (None until InitialiseDeck). */
  datatype Deck = Deck(drawPile: seq<CardData>, hand: seq<CardData>, discardPile: seq<CardData>, rng: Option<Rng>)

  /** All cards in the deck, whichever pile holds them. */
  ghost function Cards(d: Deck): multiset<CardData>
  {
    multiset(d.drawPile) + multiset(d.hand) + multiset(d.discardPile)
  }

  /**
   * Until InitialiseDeck has created the generator every pile is empty, so a
   * reshuffle never meets a missing generator.
   */
  predicate Valid(d: Deck)
  {
    d.rng.None? ==> d.drawPile == [] && d.hand == [] && d.discardPile == []
  }

  /** The draw pile TryDrawOne takes from: the pile itself, or, when it is empty, the shuffled discard pile. */
  function Refill(d: Deck): (r: Deck)
    requires Valid(d) && (d.drawPile != [] || d.discardPile != [])
    ensures r.drawPile != [] && r.hand == d.hand && r.rng.Some?
    ensures |r.drawPile| + |r.discardPile| == |d.drawPile| + |d.discardPile|
  {
    if d.drawPile != [] then
      d
    else
      var (shuffled, after) := Shuffled([] + d.discardPile, d.rng.value);
      Deck(shuffled, d.hand, [], Some(after))
  }

  /**
   * TryDrawOne: with both piles empty, nothing happens and the result is
   * false; otherwise the top (last) card of the possibly refilled draw pile
   * moves to the end of the hand.
   */
  function DrawOne(d: Deck): (r: (bool, Deck))
    requires Valid(d)
    ensures Valid(r.1)
    ensures r.0 ==> |r.1.drawPile| + |r.1.discardPile| == |d.drawPile| + |d.discardPile| - 1
  {
    if d.drawPile == [] && d.discardPile == [] then
      (false, d)
    else
      (true, TakeTop(Refill(d)))
  }

  /** The top (last) card of a non-empty draw pile moves to the end of the hand. */
  function TakeTop(d: Deck): (r: Deck)
    requires d.drawPile != []
  {
    var top := |d.drawPile| - 1;
    d.(drawPile := d.drawPile[..top], hand := d.hand + [d.drawPile[top]])
  }

  /**
   * A draw fails, changing nothing, exactly when the draw and discard piles
   * are both empty. Otherwise the hand grows by one card: the top of the draw
   * pile, which when it was empty first received the whole discard pile in a
   * shuffled order, leaving the discard pile empty.
   */
  lemma DrawOneOutcome(d: Deck)
    requires Valid(d)
    ensures var r := DrawOne(d);
      && (!r.0 <==> d.drawPile == [] && d.discardPile == [])
      && (!r.0 ==> r.1 == d)
      && (d.drawPile != [] ==>
            && r.1.hand == d.hand + [d.drawPile[|d.drawPile| - 1]]
            && r.1.drawPile == d.drawPile[..|d.drawPile| - 1]
            && r.1.discardPile == d.discardPile && r.1.rng == d.rng)
      && (d.drawPile == [] && d.discardPile != [] ==>
            var s := Shuffled(d.discardPile, d.rng.value);
            && r.1.discardPile == []
            && r.1.hand == d.hand + [s.0[|s.0| - 1]]
            && r.1.drawPile == s.0[..|s.0| - 1]
            && r.1.rng == Some(s.1))
  {
    assert [] + d.discardPile == d.discardPile;
  }

  /** A draw loses no card and creates none. */
  lemma DrawOneConserves(d: Deck)
    requires Valid(d)
    ensures Cards(DrawOne(d).1) == Cards(d)
  {
    if d.drawPile != [] || d.discardPile != [] {
      RefillConserves(d);
      TakeTopConserves(Refill(d));
    }
  }

  /** Refilling moves the discard pile into the draw pile without losing a card. */
  lemma RefillConserves(d: Deck)
    requires Valid(d) && (d.drawPile != [] || d.discardPile != [])
    ensures Cards(Refill(d)) == Cards(d)
  {
    if d.drawPile == [] {
      assert [] + d.discardPile == d.discardPile;
      ShufflePermutes(d.discardPile, |d.discardPile| - 1, d.rng.value);
      var r := Refill(d);
      assert multiset(r.drawPile) == multiset(d.discardPile);
      assert Cards(r) == multiset(d.discardPile) + multiset(d.hand);
    }
  }

  /** Taking the top card keeps every card in the deck. */
  lemma TakeTopConserves(d: Deck)
    requires d.drawPile != []
    ensures Cards(TakeTop(d)) == Cards(d)
  {
    var pile, top := d.drawPile, |d.drawPile| - 1;
    assert pile == pile[..top] + [pile[top]];
    assert multiset(pile) == multiset(pile[..top]) + multiset{pile[top]};
    assert multiset(d.hand + [pile[top]]) == multiset(d.hand) + multiset{pile[top]};
  }

  /** DrawToFullHand: draw until the hand holds `handSize` cards or a draw fails. */
  function DrawToFull(d: Deck, handSize: int): (r: Deck)
    requires Valid(d)
    ensures Valid(r)
    decreases |d.drawPile| + |d.discardPile|
  {
    if |d.hand| < handSize then
      var (drawn, next) := DrawOne(d);
      if drawn then DrawToFull(next, handSize) else d
    else
      d
  }

  /** Filling the hand loses no card and creates none. */
  lemma {:induction false} DrawToFullConserves(d: Deck, handSize: int)
    requires Valid(d)
    ensures Cards(DrawToFull(d, handSize)) == Cards(d)
    decreases |d.drawPile| + |d.discardPile|
  {
    if |d.hand| < handSize {
      var (drawn, next) := DrawOne(d);
      if drawn {
        DrawOneConserves(d);
        DrawToFullConserves(next, handSize);
      }
    }
  }

  /**
   * Filling the hand stops with at least `handSize` cards in hand or with
   * nothing left to draw; it only appends to the hand, and never beyond
   * `handSize` or the hand's old size, whichever is larger.
   */
  lemma {:induction false} DrawToFullStops(d: Deck, handSize: int)
    requires Valid(d)
    ensures var r := DrawToFull(d, handSize);
      && (|r.hand| >= handSize || (r.drawPile == [] && r.discardPile == []))
      && d.hand <= r.hand
      && |r.hand| <= (if handSize > |d.hand| then handSize else |d.hand|)
    decreases |d.drawPile| + |d.discardPile|
  {
    if |d.hand| < handSize {
      var (drawn, next) := DrawOne(d);
      DrawOneOutcome(d);
      if drawn {
        DrawToFullStops(next, handSize);
      }
    }
  }

  /**
   * With an empty discard pile there is no reshuffle: the cards drawn are the
   * top of the draw pile, most recent last, and the generator is untouched.
   */
  lemma {:induction false} DrawToFullFromTop(d: Deck, handSize: int)
    requires Valid(d) && d.discardPile == []
    ensures var r := DrawToFull(d, handSize);
      && r.discardPile == [] && r.rng == d.rng
      && d.hand <= r.hand
      && r.drawPile + Reversed(r.hand[|d.hand|..]) == d.drawPile
    decreases |d.drawPile|
  {
    if |d.hand| < handSize && d.drawPile != [] {
      DrawOneOutcome(d);
      var next := DrawOne(d).1;
      DrawToFullFromTop(next, handSize);
      var r := DrawToFull(next, handSize);
      assert DrawToFull(d, handSize) == r;
      var top := d.drawPile[|d.drawPile| - 1];
      var drawnAfter := r.hand[|next.hand|..];
      assert r.hand[|d.hand|..] == [top] + drawnAfter;
      assert ([top] + drawnAfter)[1..] == drawnAfter;
      assert d.drawPile == next.drawPile + [top];
      calc {
        r.drawPile + Reversed(r.hand[|d.hand|..]);
        r.drawPile + (Reversed(drawnAfter) + [top]);
        (r.drawPile + Reversed(drawnAfter)) + [top];
        d.drawPile;
      }
    } else {
      assert DrawToFull(d, handSize) == d;
      assert d.hand[|d.hand|..] == [];
    }
  }

  /** InitialiseDeck's result: the starting deck shuffled by a fresh generator, then a hand drawn from it. */
  function Initialised(startingDeck: seq<CardData>, handSize: int, rng: Rng): (r: Deck)
    ensures Valid(r)
  {
    var (shuffled, after) := Shuffled([] + startingDeck, rng);
    DrawToFull(Deck(shuffled, [], [], Some(after)), handSize)
  }

  /**
   * After InitialiseDeck the discard pile is empty, the draw pile and hand
   * together are a permutation of the starting deck, the hand holds
   * min(max(handSize, 0), |startingDeck|) cards, and those cards are the top
   * of the shuffled deck.
   */
  lemma InitialisedFacts(startingDeck: seq<CardData>, handSize: int, rng: Rng)
    ensures var r := Initialised(startingDeck, handSize, rng);
      && r.discardPile == []
      && multiset(r.drawPile) + multiset(r.hand) == multiset(startingDeck)
      && |r.hand| == (var n := if handSize < 0 then 0 else handSize; if n < |startingDeck| then n else |startingDeck|)
      && r.drawPile + Reversed(r.hand) == Shuffled(startingDeck, rng).0
  {
    assert [] + startingDeck == startingDeck;
    var shuffled := Shuffled(startingDeck, rng);
    var d := Deck(shuffled.0, [], [], Some(shuffled.1));
    var r := DrawToFull(d, handSize);
    assert Initialised(startingDeck, handSize, rng) == r;
    ShufflePermutes(startingDeck, |startingDeck| - 1, rng);
    DrawToFullConserves(d, handSize);
    DrawToFullStops(d, handSize);
    DrawToFullFromTop(d, handSize);
    assert r.hand[0..] == r.hand;
    assert shuffled == ShuffleFrom(startingDeck, |startingDeck| - 1, rng);
    assert Cards(d) == multiset(startingDeck);
    assert Cards(r) == multiset(r.drawPile) + multiset(r.hand) by {
      assert r.discardPile == [];
    }
    assert |r.drawPile| + |r.hand| == |startingDeck| by {
      assert |r.drawPile + Reversed(r.hand)| == |shuffled.0|;
    }
  }

  /** TryPlayCard: the first occurrence of `card` leaves the hand for the end of the discard pile. */
  function PlayCard(d: Deck, card: CardData): (r: (bool, Deck))
  {
    var handIndex := IndexOf(d.hand, card);
    if handIndex < 0 then
      (false, d)
    else
      (true, d.(hand := RemoveAt(d.hand, handIndex), discardPile := d.discardPile + [card]))
  }

  /**
   * Playing succeeds exactly when the card is in the hand; a failed play
   * changes nothing, a successful one moves one copy of the card from the hand
   * to the top of the discard pile, losing no card.
   */
  lemma PlayCardFacts(d: Deck, card: CardData)
    ensures var r := PlayCard(d, card);
      && (r.0 <==> card in d.hand)
      && (!r.0 ==> r.1 == d)
      && (r.0 ==>
            && (var k := IndexOf(d.hand, card); r.1.hand == d.hand[..k] + d.hand[k + 1..])
            && multiset(r.1.hand) + multiset{card} == multiset(d.hand)
            && r.1.discardPile == d.discardPile + [card]
            && r.1.drawPile == d.drawPile)
      && Cards(r.1) == Cards(d)
      && (Valid(d) ==> Valid(r.1))
  {
  }

  /** DiscardHand: the whole hand, in order, goes to the end of the discard pile. */
  function DiscardAll(d: Deck): (r: Deck)
  {
    d.(discardPile := d.discardPile + d.hand, hand := [])
  }

  /** Discarding the hand empties it and loses no card. */
  lemma DiscardAllConserves(d: Deck)
    ensures DiscardAll(d).hand == []
    ensures Cards(DiscardAll(d)) == Cards(d)
    ensures Valid(d) ==> Valid(DiscardAll(d))
  {
  }

  /** The scene component that owns the piles. */
  class CardDeckController {
    var startingDeck: seq<CardData>
    var handSize: int
    var drawPile: seq<CardData>
    var hand: seq<CardData>
    var discardPile: seq<CardData>
    var rng: Option<Rng>

    function State(): Deck
      reads this
    {
      Deck(drawPile, hand, discardPile, rng)
    }

    /** A component as the editor creates it: the serialised deck and hand size, empty piles, no generator. */
    constructor (startingDeck: seq<CardData>, handSize: int)
      ensures this.startingDeck == startingDeck && this.handSize == handSize
      ensures State() == Deck([], [], [], None)
    {
      this.startingDeck := startingDeck;
      this.handSize := handSize;
      drawPile := [];
      hand := [];
      discardPile := [];
      rng := None;
    }

    /**
     * Empties the piles, puts the starting deck into the draw pile, seeds the
     * generator with `seed`, or with `entropy` (Unity's Random.Range) when no
     * seed is given, shuffles and draws a hand.
     */
    method InitialiseDeck(seed: Option<int>, entropy: int, algorithm: int -> (nat -> nat))
      modifies this`drawPile, this`hand, this`discardPile, this`rng
      ensures State() == Initialised(startingDeck, handSize, Seeded(algorithm, if seed.Some? then seed.value else entropy))
    {
      drawPile := [];
      discardPile := [];
      hand := [];

      drawPile := drawPile + startingDeck;
      rng := Some(Seeded(algorithm, if seed.Some? then seed.value else entropy));
      Shuffle();
      DrawToFullHand();
    }

    /** Draws until the hand holds `handSize` cards or no card is left to draw. */
    method DrawToFullHand()
      requires Valid(State())
      modifies this`drawPile, this`hand, this`discardPile, this`rng
      ensures State() == DrawToFull(old(State()), handSize)
    {
      ghost var start := State();
      while |hand| < handSize
        invariant Valid(State())
        invariant DrawToFull(State(), handSize) == DrawToFull(start, handSize)
        decreases |drawPile| + |discardPile|
      {
        var drawn := TryDrawOne();
        if !drawn {
          break;
        }
      }
    }

    /** Moves the top card of the draw pile, refilled from the discard pile when empty, to the hand. */
    method TryDrawOne() returns (drawn: bool)
      requires Valid(State())
      modifies this`drawPile, this`hand, this`discardPile, this`rng
      ensures (drawn, State()) == DrawOne(old(State()))
    {
      if |drawPile| == 0 {
        if |discardPile| == 0 {
          return false;
        }

        drawPile := drawPile + discardPile;
        discardPile := [];
        Shuffle();
      }

      var index := |drawPile| - 1;
      var card := drawPile[index];
      drawPile := drawPile[..index];
      hand := hand + [card];
      return true;
    }

    /** Moves the first occurrence of `card` from the hand to the discard pile, if the hand holds it. */
    method TryPlayCard(card: CardData) returns (played: bool)
      modifies this`hand, this`discardPile
      ensures (played, State()) == PlayCard(old(State()), card)
    {
      var handIndex := IndexOf(hand, card);
      if handIndex < 0 {
        return false;
      }

      hand := RemoveAt(hand, handIndex);
      discardPile := discardPile + [card];
      return true;
    }

    /** Moves the whole hand to the discard pile. */
    method DiscardHand()
      modifies this`hand, this`discardPile
      ensures State() == DiscardAll(old(State()))
    {
      discardPile := discardPile + hand;
      hand := [];
    }

    /**
     * Fisher-Yates shuffle of the draw pile (the only pile it is applied to):
     * from the last position down to 1, swap with a position drawn below it.
     */
    method Shuffle()
      requires rng.Some?
      modifies this`drawPile, this`rng
      ensures var r := Shuffled(old(drawPile), old(rng).value);
        drawPile == r.0 && rng == Some(r.1)
    {
      ghost var pile0, rng0 := drawPile, rng.value;
      var i := |drawPile| - 1;
      while i > 0
        invariant -1 <= i < |drawPile| && rng.Some?
        invariant ShuffleFrom(drawPile, i, rng.value) == ShuffleFrom(pile0, |pile0| - 1, rng0)
        decreases i
      {
        var (swapIndex, after) := Next(rng.value, i + 1);
        rng := Some(after);
        drawPile := drawPile[i := drawPile[swapIndex]][swapIndex := drawPile[i]];
        i := i - 1;
      }
    }
  }
}
