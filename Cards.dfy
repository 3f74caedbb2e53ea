/**
 * The card domain of Skat: the three seats, the four suits, the eight
 * values, the 32 cards with their index into the deck, and the slot type
 * that may hold a card the current observer does not know.
 */
module Cards {

  /** The three seats; the discriminant orders them as the source declares them. */
  datatype Player = Forehand | Middlehand | Rearhand

  const PLAYER_COUNT: nat := 3
  const SUIT_COUNT: nat := 4
  const VALUE_COUNT: nat := 8
  const CARD_COUNT: nat := 32

  /** `player as usize`: the position of a player's hand in the card store. */
  function PlayerIndex(p: Player): (i: nat)
    ensures i < PLAYER_COUNT
  {
    match p
    case Forehand => 0
    case Middlehand => 1
    case Rearhand => 2
  }

  /** The player who plays after `p`, in seat order. */
  function Next(p: Player): (q: Player)
    ensures q != p
  {
    match p
    case Forehand => Middlehand
    case Middlehand => Rearhand
    case Rearhand => Forehand
  }

  /** `p` advanced `n` seats (the loop `for _ in 0..n { p = p.next() }`). */
  function Advance(p: Player, n: nat): (r: Player)
    decreases n
    ensures n % PLAYER_COUNT == 0 ==> r == p
    ensures n % PLAYER_COUNT == 1 ==> r == Next(p)
    ensures n % PLAYER_COUNT == 2 ==> r == Next(Next(p))
  {
    if n == 0 then p else Advance(Next(p), n - 1)
  }

  /** The two players other than `p`: the team playing against a declarer `p`. */
  function Others(p: Player): (r: seq<Player>)
    ensures |r| == 2 && r[0] != r[1]
    ensures p !in r
    ensures forall q :: q != p ==> q in r
  {
    [Next(p), Next(Next(p))]
  }

  datatype Suit = Clubs | Spades | Hearts | Diamonds

  datatype CardValue = Num7 | Num8 | Num9 | Jack | Queen | King | Num10 | Ace

  /** `suit as usize`. */
  function SuitIndex(s: Suit): (i: nat)
    ensures i < SUIT_COUNT
  {
    match s
    case Clubs => 0
    case Spades => 1
    case Hearts => 2
    case Diamonds => 3
  }

  /** `value as usize`. */
  function ValueIndex(v: CardValue): (i: nat)
    ensures i < VALUE_COUNT
  {
    match v
    case Num7 => 0
    case Num8 => 1
    case Num9 => 2
    case Jack => 3
    case Queen => 4
    case King => 5
    case Num10 => 6
    case Ace => 7
  }

  /** Every suit exactly once, in declaration order. */
  function SuitAll(): (r: seq<Suit>)
    ensures |r| == SUIT_COUNT
    ensures forall i :: 0 <= i < SUIT_COUNT ==> SuitIndex(r[i]) == i
    ensures forall s :: r[SuitIndex(s)] == s
  {
    [Clubs, Spades, Hearts, Diamonds]
  }

  /** Every card value exactly once, in declaration order. */
  function ValueAll(): (r: seq<CardValue>)
    ensures |r| == VALUE_COUNT
    ensures forall i :: 0 <= i < VALUE_COUNT ==> ValueIndex(r[i]) == i
    ensures forall v :: r[ValueIndex(v)] == v
  {
    [Num7, Num8, Num9, Jack, Queen, King, Num10, Ace]
  }

  datatype Card = Card(suit: Suit, value: CardValue)

  /** The position of `c` in the deck: suit-major, value-minor. */
  function Index(c: Card): (i: nat)
    ensures i < CARD_COUNT
    ensures i / VALUE_COUNT == SuitIndex(c.suit) && i % VALUE_COUNT == ValueIndex(c.value)
  {
    SuitIndex(c.suit) * VALUE_COUNT + ValueIndex(c.value)
  }

  /** The card at position `i` of the deck: the inverse of `Index`. */
  function CardAt(i: nat): Card
    requires i < CARD_COUNT
  {
    Card(SuitAll()[i / VALUE_COUNT], ValueAll()[i % VALUE_COUNT])
  }

  lemma CardAtIndex(c: Card)
    ensures CardAt(Index(c)) == c
  {
  }

  lemma IndexCardAt(i: nat)
    requires i < CARD_COUNT
    ensures Index(CardAt(i)) == i
  {
  }

  /** Distinct cards have distinct indices. */
  lemma IndexInjective(a: Card, b: Card)
    ensures Index(a) == Index(b) ==> a == b
  {
    CardAtIndex(a);
    CardAtIndex(b);
  }

  /** The deck in index order, built by the nested loops of `Card::all`. */
  method All() returns (cards: seq<Card>)
    ensures |cards| == CARD_COUNT
    ensures forall i :: 0 <= i < CARD_COUNT ==> Index(cards[i]) == i
    ensures forall c :: cards[Index(c)] == c
  {
    var a := new Card[CARD_COUNT](_ => Card(Clubs, Num7));
    var suit := 0;
    while suit < SUIT_COUNT
      invariant 0 <= suit <= SUIT_COUNT
      invariant forall i :: 0 <= i < suit * VALUE_COUNT ==> Index(a[i]) == i
    {
      var value := 0;
      while value < VALUE_COUNT
        invariant 0 <= value <= VALUE_COUNT
        invariant forall i :: 0 <= i < suit * VALUE_COUNT + value ==> Index(a[i]) == i
      {
        var card := Card(SuitAll()[suit], ValueAll()[value]);
        a[Index(card)] := card;
        value := value + 1;
      }
      suit := suit + 1;
    }
    cards := a[..];
    forall c: Card
      ensures cards[Index(c)] == c
    {
      IndexInjective(cards[Index(c)], c);
    }
  }

  /** A slot whose card the observer may not know (`OptCard`; `None` in `CardVec`). */
  datatype OptCard = Hidden | Known(card: Card)

  /** The cards of the known slots of `s`, in order (`flatten` over the slots). */
  function KnownCards(s: seq<OptCard>): (r: seq<Card>)
    ensures |r| <= |s|
    ensures forall c :: c in r <==> Known(c) in s
  {
    if s == [] then []
    else (if s[0].Known? then [s[0].card] else []) + KnownCards(s[1..])
  }

  /** The known cards of two runs of slots are those of each run in turn. */
  lemma {:induction false} KnownCardsAppend(a: seq<OptCard>, b: seq<OptCard>)
    ensures KnownCards(a + b) == KnownCards(a) + KnownCards(b)
  {
    if a == [] {
      assert a + b == b;
    } else {
      assert (a + b)[1..] == a[1..] + b;
      KnownCardsAppend(a[1..], b);
    }
  }

  /** Without a hidden slot, every slot contributes its card. */
  lemma {:induction false} KnownCardsAllKnown(h: seq<OptCard>)
    requires Hidden !in h
    ensures |KnownCards(h)| == |h|
  {
    if h != [] {
      assert Hidden !in h[1..] by { assert forall x :: x in h[1..] ==> x in h; }
      KnownCardsAllKnown(h[1..]);
    }
  }

  /** No card occurs twice in `s`. */
  ghost predicate Distinct(s: seq<Card>) {
    forall c :: multiset(s)[c] <= 1
  }

  /** The deck positions of the cards of `s`. */
  function IndexSet(s: seq<Card>): set<nat> {
    set c | c in s :: Index(c)
  }

  /** Distinct cards occupy as many deck positions as there are cards. */
  lemma {:induction false} DistinctIndexCount(s: seq<Card>)
    requires Distinct(s)
    ensures |IndexSet(s)| == |s|
  {
    if s != [] {
      var rest := s[1..];
      assert s == [s[0]] + rest;
      assert multiset(s) == multiset{s[0]} + multiset(rest);
      assert Distinct(rest) by {
        forall c ensures multiset(rest)[c] <= 1 {
          assert multiset(rest)[c] <= multiset(s)[c];
        }
      }
      DistinctIndexCount(rest);
      assert s[0] !in rest by {
        assert multiset(s)[s[0]] == 1 + multiset(rest)[s[0]];
      }
      forall y | y in rest ensures Index(y) != Index(s[0]) {
        IndexInjective(y, s[0]);
      }
      assert IndexSet(s) == {Index(s[0])} + IndexSet(rest);
    }
  }

  /** The positions below `n`. */
  ghost function Range(n: nat): (r: set<nat>)
    ensures forall i: nat :: i in r <==> i < n
    ensures |r| == n
  {
    if n == 0 then {} else Range(n - 1) + {n - 1}
  }

  /** A subset as large as its superset is the superset. */
  lemma SubsetFull(a: set<nat>, b: set<nat>)
    requires a <= b && |a| == |b|
    ensures a == b
  {
    assert b == a + (b - a);
    assert a * (b - a) == {};
    assert |b - a| == 0;
  }

  /** A card that occurs in `s` is counted by its multiset. */
  lemma Counted(s: seq<Card>, c: Card)
    requires c in s
    ensures multiset(s)[c] >= 1
  {
    var i :| 0 <= i < |s| && s[i] == c;
    assert s == s[..i] + [c] + s[i + 1..];
    assert multiset(s) == multiset(s[..i]) + multiset{c} + multiset(s[i + 1..]);
  }

  /** Thirty-two distinct cards are the whole deck, each card once. */
  lemma DistinctDeckCovers(s: seq<Card>)
    requires Distinct(s) && |s| == CARD_COUNT
    ensures forall c :: c in s
    ensures forall c :: multiset(s)[c] == 1
  {
    DistinctIndexCount(s);
    SubsetFull(IndexSet(s), Range(CARD_COUNT));
    forall c ensures c in s {
      assert Index(c) in IndexSet(s);
      var y :| y in s && Index(y) == Index(c);
      IndexInjective(y, c);
    }
    forall c ensures multiset(s)[c] == 1 {
      Counted(s, c);
    }
  }

  /** The trick points a card is worth. */
  function Points(c: Card): nat
  {
    match c.value
    case Ace => 11
    case Num10 => 10
    case King => 4
    case Queen => 3
    case Jack => 2
    case _ => 0
  }

  /** The points of a pile of cards (the `sum()` over a trick). */
  function SumPoints(s: seq<Card>): nat
  {
    if s == [] then 0 else Points(s[0]) + SumPoints(s[1..])
  }
}
