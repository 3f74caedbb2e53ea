/**
 * The card store: the three hands, the Skat (widow), the trick in progress
 * and the last completed trick. Hand and Skat slots may be unknown to the
 * observer the store was redacted for.
 */
module CardStore {
  import opened Wrappers
  import opened Cards

  /** The number of cards in the Skat. */
  const SKAT_SIZE: nat := 2

  /** The contents of a card store as a value, handed to the rules the store's owner consults. */
  datatype Store = Store(
    hands: seq<seq<OptCard>>,
    skat: seq<OptCard>,
    trick: seq<Card>,
    lastTrick: Option<seq<Card>>)

  /** The store after `card` is added to the hand of `target`, or to the Skat when `target` is `None`. */
  function GiveTo(s: Store, target: Option<Player>, card: OptCard): Store
    requires |s.hands| == PLAYER_COUNT
  {
    match target
    case Some(p) => s.(hands := s.hands[PlayerIndex(p) := s.hands[PlayerIndex(p)] + [card]])
    case None => s.(skat := s.skat + [card])
  }

  /** The cards of the last trick, if there is one. */
  function LastCards(t: Option<seq<Card>>): seq<Card> {
    match t case Some(cs) => cs case None => []
  }

  /**
   * Every card the store knows the place of: the known slots of the hands
   * and of the Skat, then the trick and the last trick. Unknown slots are
   * skipped.
   */
  function Placed(s: Store): seq<Card>
    requires |s.hands| == PLAYER_COUNT
  {
    KnownCards(s.hands[0]) + KnownCards(s.hands[1]) + KnownCards(s.hands[2]) + KnownCards(s.skat)
    + s.trick + LastCards(s.lastTrick)
  }

  /** The placed cards counted place by place. */
  ghost function Bag(s: Store): multiset<Card>
    requires |s.hands| == PLAYER_COUNT
  {
    multiset(KnownCards(s.hands[0])) + multiset(KnownCards(s.hands[1])) + multiset(KnownCards(s.hands[2]))
    + multiset(KnownCards(s.skat)) + multiset(s.trick) + multiset(LastCards(s.lastTrick))
  }

  lemma PlacedBag(s: Store)
    requires |s.hands| == PLAYER_COUNT
    ensures multiset(Placed(s)) == Bag(s)
  {
    var a := KnownCards(s.hands[0]) + KnownCards(s.hands[1]);
    var b := a + KnownCards(s.hands[2]);
    var c := b + KnownCards(s.skat);
    var d := c + s.trick;
    assert Placed(s) == d + LastCards(s.lastTrick);
    assert multiset(a) == multiset(KnownCards(s.hands[0])) + multiset(KnownCards(s.hands[1]));
    assert multiset(b) == multiset(a) + multiset(KnownCards(s.hands[2]));
    assert multiset(c) == multiset(b) + multiset(KnownCards(s.skat));
    assert multiset(d) == multiset(c) + multiset(s.trick);
  }

  /** Replacing the first hand by `h` trades its known cards for those of `h`. */
  lemma BagUpdateFirst(s: Store, h: seq<OptCard>)
    requires |s.hands| == PLAYER_COUNT
    ensures Bag(s.(hands := s.hands[0 := h])) + multiset(KnownCards(s.hands[0])) == Bag(s) + multiset(KnownCards(h))
  {
    var t := s.(hands := s.hands[0 := h]);
    assert t.hands[0] == h && t.hands[1] == s.hands[1] && t.hands[2] == s.hands[2];
  }

  /** Replacing the second hand by `h` trades its known cards for those of `h`. */
  lemma BagUpdateSecond(s: Store, h: seq<OptCard>)
    requires |s.hands| == PLAYER_COUNT
    ensures Bag(s.(hands := s.hands[1 := h])) + multiset(KnownCards(s.hands[1])) == Bag(s) + multiset(KnownCards(h))
  {
    var t := s.(hands := s.hands[1 := h]);
    assert t.hands[0] == s.hands[0] && t.hands[1] == h && t.hands[2] == s.hands[2];
  }

  /** Replacing the third hand by `h` trades its known cards for those of `h`. */
  lemma BagUpdateThird(s: Store, h: seq<OptCard>)
    requires |s.hands| == PLAYER_COUNT
    ensures Bag(s.(hands := s.hands[2 := h])) + multiset(KnownCards(s.hands[2])) == Bag(s) + multiset(KnownCards(h))
  {
    var t := s.(hands := s.hands[2 := h]);
    assert t.hands[0] == s.hands[0] && t.hands[1] == s.hands[1] && t.hands[2] == h;
  }

  /** Replacing hand `k` by `h` trades the known cards of the old hand for those of `h`. */
  lemma PlacedUpdateHand(s: Store, k: nat, h: seq<OptCard>)
    requires |s.hands| == PLAYER_COUNT && k < PLAYER_COUNT
    ensures multiset(Placed(s.(hands := s.hands[k := h]))) + multiset(KnownCards(s.hands[k]))
         == multiset(Placed(s)) + multiset(KnownCards(h))
  {
    PlacedBag(s);
    PlacedBag(s.(hands := s.hands[k := h]));
    if k == 0 {
      BagUpdateFirst(s, h);
    } else if k == 1 {
      BagUpdateSecond(s, h);
    } else {
      BagUpdateThird(s, h);
    }
  }

  /** Replacing the Skat by `k` trades the known cards of the old Skat for those of `k`. */
  lemma PlacedUpdateSkat(s: Store, k: seq<OptCard>)
    requires |s.hands| == PLAYER_COUNT
    ensures multiset(Placed(s.(skat := k))) + multiset(KnownCards(s.skat))
         == multiset(Placed(s)) + multiset(KnownCards(k))
  {
    PlacedBag(s);
    PlacedBag(s.(skat := k));
  }

  /** Equal sums with a common part are equal without it. */
  lemma Cancel(a: multiset<Card>, b: multiset<Card>, c: multiset<Card>, d: multiset<Card>)
    requires a + b == c + b + d
    ensures a == c + d
  {
    forall x ensures a[x] == (c + d)[x] {
      assert (a + b)[x] == (c + b + d)[x];
    }
  }

  /** The known cards of a single slot. */
  lemma KnownSlot(slot: OptCard)
    ensures multiset(KnownCards([slot])) == if slot.Known? then multiset{slot.card} else multiset{}
  {
    assert [slot][1..] == [];
  }

  /**
   * Exchanging the cards `gone` for the cards `added` keeps a sequence of
   * cards free of repeats when each added card either replaces one that
   * went, or is new and added once.
   */
  lemma ExchangeKeepsDistinct(a: seq<Card>, b: seq<Card>, gone: multiset<Card>, added: multiset<Card>)
    requires Distinct(a) && multiset(b) + gone == multiset(a) + added
    requires forall c :: added[c] <= gone[c] || (added[c] == 1 && c !in a)
    ensures Distinct(b)
  {
    forall c ensures multiset(b)[c] <= 1 {
      assert (multiset(b) + gone)[c] == (multiset(a) + added)[c];
      assert multiset(a)[c] <= 1;
    }
  }

  /** Adding a slot to hand `k` adds its card, when it is known, to the placed cards. */
  lemma GiveToHandPlaced(s: Store, k: nat, slot: OptCard)
    requires |s.hands| == PLAYER_COUNT && k < PLAYER_COUNT
    ensures multiset(Placed(s.(hands := s.hands[k := s.hands[k] + [slot]])))
         == multiset(Placed(s)) + multiset(KnownCards([slot]))
  {
    var h := s.hands[k] + [slot];
    KnownCardsAppend(s.hands[k], [slot]);
    PlacedUpdateHand(s, k, h);
    Cancel(multiset(Placed(s.(hands := s.hands[k := h]))), multiset(KnownCards(s.hands[k])),
           multiset(Placed(s)), multiset(KnownCards([slot])));
  }

  /** Adding a slot to the Skat adds its card, when it is known, to the placed cards. */
  lemma GiveToSkatPlaced(s: Store, slot: OptCard)
    requires |s.hands| == PLAYER_COUNT
    ensures multiset(Placed(s.(skat := s.skat + [slot]))) == multiset(Placed(s)) + multiset(KnownCards([slot]))
  {
    KnownCardsAppend(s.skat, [slot]);
    PlacedUpdateSkat(s, s.skat + [slot]);
    Cancel(multiset(Placed(s.(skat := s.skat + [slot]))), multiset(KnownCards(s.skat)),
           multiset(Placed(s)), multiset(KnownCards([slot])));
  }

  /** Giving a slot adds its card, when it is known, to the placed cards. */
  lemma GiveToPlaced(s: Store, target: Option<Player>, slot: OptCard)
    requires |s.hands| == PLAYER_COUNT
    ensures |GiveTo(s, target, slot).hands| == PLAYER_COUNT
    ensures multiset(Placed(GiveTo(s, target, slot))) == multiset(Placed(s)) + multiset(KnownCards([slot]))
  {
    match target
    case Some(p) => GiveToHandPlaced(s, PlayerIndex(p), slot);
    case None => GiveToSkatPlaced(s, slot);
  }

  /**
   * Dealing a slot keeps the placed cards free of repeats when a known
   * card is not placed yet; the placed cards gain exactly that card.
   */
  lemma DealKeepsDistinct(s: Store, target: Option<Player>, slot: OptCard)
    requires |s.hands| == PLAYER_COUNT && Distinct(Placed(s))
    requires slot.Known? ==> slot.card !in Placed(s)
    ensures |GiveTo(s, target, slot).hands| == PLAYER_COUNT
    ensures multiset(Placed(GiveTo(s, target, slot))) ==
      multiset(Placed(s)) + (if slot.Known? then multiset{slot.card} else multiset{})
    ensures Distinct(Placed(GiveTo(s, target, slot)))
  {
    GiveToPlaced(s, target, slot);
    KnownSlot(slot);
    ExchangeKeepsDistinct(Placed(s), Placed(GiveTo(s, target, slot)), multiset{}, multiset(KnownCards([slot])));
  }

  /** Taking the top slot off the Skat removes its card, when it is known, from the placed cards. */
  lemma PopSkatPlaced(s: Store)
    requires |s.hands| == PLAYER_COUNT && s.skat != []
    ensures multiset(Placed(s.(skat := s.skat[..|s.skat| - 1]))) + multiset(KnownCards([s.skat[|s.skat| - 1]]))
         == multiset(Placed(s))
  {
    var top := s.skat[|s.skat| - 1];
    var rest := s.skat[..|s.skat| - 1];
    assert s.skat == rest + [top];
    KnownCardsAppend(rest, [top]);
    PlacedUpdateSkat(s, rest);
    Cancel(multiset(Placed(s.(skat := rest))) + multiset(KnownCards([top])), multiset(KnownCards(rest)),
           multiset(Placed(s)), multiset{});
  }

  /** Picking the top Skat slot up as `slot` trades the top card for the picked one among the placed cards. */
  lemma PickPlaced(s: Store, d: Player, slot: OptCard)
    requires |s.hands| == PLAYER_COUNT && s.skat != []
    ensures |GiveTo(s.(skat := s.skat[..|s.skat| - 1]), Some(d), slot).hands| == PLAYER_COUNT
    ensures multiset(Placed(GiveTo(s.(skat := s.skat[..|s.skat| - 1]), Some(d), slot)))
            + multiset(KnownCards([s.skat[|s.skat| - 1]]))
         == multiset(Placed(s)) + multiset(KnownCards([slot]))
  {
    PopSkatPlaced(s);
    GiveToPlaced(s.(skat := s.skat[..|s.skat| - 1]), Some(d), slot);
  }

  /**
   * Picking the top Skat slot (the last one) up into the hand of `d` as
   * `slot` keeps the placed cards free of repeats when a known card is the
   * known top card, or is not placed yet under a hidden top. The placed
   * cards change only by the top card leaving and the picked card arriving.
   */
  lemma PickKeepsDistinct(s: Store, d: Player, slot: OptCard)
    requires |s.hands| == PLAYER_COUNT && s.skat != [] && Distinct(Placed(s))
    requires slot.Known? && s.skat[|s.skat| - 1].Known? ==> slot.card == s.skat[|s.skat| - 1].card
    requires slot.Known? && s.skat[|s.skat| - 1].Hidden? ==> slot.card !in Placed(s)
    ensures |GiveTo(s.(skat := s.skat[..|s.skat| - 1]), Some(d), slot).hands| == PLAYER_COUNT
    ensures multiset(Placed(GiveTo(s.(skat := s.skat[..|s.skat| - 1]), Some(d), slot)))
            + multiset(KnownCards([s.skat[|s.skat| - 1]]))
         == multiset(Placed(s)) + multiset(KnownCards([slot]))
    ensures Distinct(Placed(GiveTo(s.(skat := s.skat[..|s.skat| - 1]), Some(d), slot)))
  {
    var top := s.skat[|s.skat| - 1];
    PickPlaced(s, d, slot);
    KnownSlot(slot);
    KnownSlot(top);
    ExchangeKeepsDistinct(Placed(s), Placed(GiveTo(s.(skat := s.skat[..|s.skat| - 1]), Some(d), slot)),
                          multiset(KnownCards([top])), multiset(KnownCards([slot])));
  }

  /** Revealing a hidden slot `i` of `h` as `c` adds `c` to the known cards of `h`. */
  lemma RevealSlotKnown(h: seq<OptCard>, i: nat, c: Card)
    requires i < |h| && h[i].Hidden?
    ensures multiset(KnownCards(h[i := Known(c)])) == multiset(KnownCards(h)) + multiset{c}
  {
    var pre, post := h[..i], h[i + 1..];
    assert h == pre + [h[i]] + post;
    assert h[i := Known(c)] == pre + [Known(c)] + post;
    KnownCardsAppend(pre + [h[i]], post);
    KnownCardsAppend(pre, [h[i]]);
    KnownCardsAppend(pre + [Known(c)], post);
    KnownCardsAppend(pre, [Known(c)]);
    KnownSlot(h[i]);
    KnownSlot(Known(c));
  }

  /** Revealing a hidden slot `i` of hand `k` as `c` adds `c` to the placed cards. */
  lemma RevealHiddenPlaced(s: Store, k: nat, i: nat, c: Card)
    requires |s.hands| == PLAYER_COUNT && k < PLAYER_COUNT && i < |s.hands[k]| && s.hands[k][i].Hidden?
    ensures multiset(Placed(s.(hands := s.hands[k := s.hands[k][i := Known(c)]]))) == multiset(Placed(s)) + multiset{c}
  {
    var h := s.hands[k];
    RevealSlotKnown(h, i, c);
    PlacedUpdateHand(s, k, h[i := Known(c)]);
    Cancel(multiset(Placed(s.(hands := s.hands[k := h[i := Known(c)]]))), multiset(KnownCards(h)),
           multiset(Placed(s)), multiset{c});
  }

  /** Revealing a known slot as its own card leaves the store as it was. */
  lemma RevealKnownSame(s: Store, k: nat, i: nat, c: Card)
    requires |s.hands| == PLAYER_COUNT && k < PLAYER_COUNT && i < |s.hands[k]|
    requires s.hands[k][i] == Known(c)
    ensures s.(hands := s.hands[k := s.hands[k][i := Known(c)]]) == s
  {
    assert s.hands[k][i := Known(c)] == s.hands[k];
    assert s.hands[k := s.hands[k]] == s.hands;
  }

  /**
   * Revealing slot `i` of hand `k` as `c` keeps the placed cards free of
   * repeats when a known slot is revealed as its own card, or a hidden one
   * as a card not placed yet. The placed cards gain `c` exactly when the
   * slot was hidden.
   */
  lemma RevealKeepsDistinct(s: Store, k: nat, i: nat, c: Card)
    requires |s.hands| == PLAYER_COUNT && k < PLAYER_COUNT && i < |s.hands[k]| && Distinct(Placed(s))
    requires s.hands[k][i].Known? ==> c == s.hands[k][i].card
    requires s.hands[k][i].Hidden? ==> c !in Placed(s)
    ensures multiset(Placed(s.(hands := s.hands[k := s.hands[k][i := Known(c)]]))) ==
      multiset(Placed(s)) + (if s.hands[k][i].Hidden? then multiset{c} else multiset{})
    ensures Distinct(Placed(s.(hands := s.hands[k := s.hands[k][i := Known(c)]])))
  {
    if s.hands[k][i].Known? {
      RevealKnownSame(s, k, i, c);
    } else {
      RevealHiddenPlaced(s, k, i, c);
      ExchangeKeepsDistinct(Placed(s), Placed(s.(hands := s.hands[k := s.hands[k][i := Known(c)]])),
                            multiset{}, multiset{c});
    }
  }

  /**
   * Once dealing is over with every slot known, thirty-two distinct cards
   * fill three hands of ten and a Skat of two: every card of the deck lies
   * in exactly one place.
   */
  lemma FullDealCoversDeck(s: Store)
    requires |s.hands| == PLAYER_COUNT && (forall p :: |s.hands[PlayerIndex(p)]| == 10) && |s.skat| == SKAT_SIZE
    requires s.trick == [] && s.lastTrick == None
    requires (forall p :: Hidden !in s.hands[PlayerIndex(p)]) && Hidden !in s.skat
    requires Distinct(Placed(s))
    ensures forall c :: multiset(Placed(s))[c] == 1
  {
    assert PlayerIndex(Forehand) == 0 && PlayerIndex(Middlehand) == 1 && PlayerIndex(Rearhand) == 2;
    var h0, h1, h2 := s.hands[0], s.hands[1], s.hands[2];
    assert |h0| == 10 && |h1| == 10 && |h2| == 10;
    assert Hidden !in h0 && Hidden !in h1 && Hidden !in h2;
    KnownCardsAllKnown(h0);
    KnownCardsAllKnown(h1);
    KnownCardsAllKnown(h2);
    KnownCardsAllKnown(s.skat);
    assert |Placed(s)| == CARD_COUNT;
    DistinctDeckCovers(Placed(s));
  }

  /**
   * The cards whose index is below `n` and that do not occur in `placed`,
   * in ascending index order.
   */
  function Unplaced(placed: seq<Card>, n: nat): (r: seq<Card>)
    requires n <= CARD_COUNT
    ensures forall c :: c in r <==> Index(c) < n && c !in placed
    ensures forall i, j :: 0 <= i < j < |r| ==> Index(r[i]) < Index(r[j])
    ensures forall i :: 0 <= i < |r| ==> Index(r[i]) < n
  {
    if n == 0 then []
    else
      IndexCardAt(n - 1);
      forall c | Index(c) == n - 1 ensures c == CardAt(n - 1) { CardAtIndex(c); }
      Unplaced(placed, n - 1) + (if CardAt(n - 1) !in placed then [CardAt(n - 1)] else [])
  }

  /** A card is absent from `placed` exactly when no card of `placed` has its index. */
  lemma NotPlacedByIndex(placed: seq<Card>, n: nat)
    requires n < CARD_COUNT
    ensures (forall j :: 0 <= j < |placed| ==> Index(placed[j]) != n) <==> CardAt(n) !in placed
  {
    IndexCardAt(n);
    forall j | 0 <= j < |placed| && Index(placed[j]) == n ensures placed[j] == CardAt(n) {
      CardAtIndex(placed[j]);
    }
  }

  /** A table of 32 flags, cleared at the index of every card of `placed`. */
  method UnplacedFlags(placed: seq<Card>) returns (unknown: array<bool>)
    ensures fresh(unknown) && unknown.Length == CARD_COUNT
    ensures forall n :: 0 <= n < CARD_COUNT ==> (unknown[n] <==> CardAt(n) !in placed)
  {
    unknown := new bool[CARD_COUNT](_ => true);
    for k := 0 to |placed|
      invariant forall n :: 0 <= n < CARD_COUNT ==>
        (unknown[n] <==> forall j :: 0 <= j < k ==> Index(placed[j]) != n)
    {
      unknown[Index(placed[k])] := false;
    }
    forall n | 0 <= n < CARD_COUNT ensures unknown[n] <==> CardAt(n) !in placed {
      NotPlacedByIndex(placed, n);
    }
  }

  /** The deck filtered by `flags`, which marks the cards not in `placed`. */
  method KeepFlagged(placed: seq<Card>, flags: seq<bool>) returns (r: seq<Card>)
    requires |flags| == CARD_COUNT
    requires forall n :: 0 <= n < CARD_COUNT ==> (flags[n] <==> CardAt(n) !in placed)
    ensures r == Unplaced(placed, CARD_COUNT)
  {
    var all := All();
    r := [];
    for n := 0 to CARD_COUNT
      invariant r == Unplaced(placed, n)
    {
      var card := all[n];
      CardAtIndex(card);
      assert card == CardAt(n);
      if flags[n] {
        r := r + [card];
      }
    }
  }

  class CardStruct {
    var hands: seq<seq<OptCard>>
    var skat: seq<OptCard>
    var trick: seq<Card>
    var lastTrick: Option<seq<Card>>

    ghost predicate Valid()
      reads this
    {
      |hands| == PLAYER_COUNT
    }

    /** The empty store a deal starts from. */
    constructor ()
      ensures Valid()
      ensures hands == [[], [], []] && skat == [] && trick == [] && lastTrick == None
    {
      hands := [[], [], []];
      skat := [];
      trick := [];
      lastTrick := None;
    }

    /** The hand of `p` (indexing the store by a player). */
    function Hand(p: Player): seq<OptCard>
      reads this
      requires Valid()
    {
      hands[PlayerIndex(p)]
    }

    function Snapshot(): Store
      reads this
    {
      Store(hands, skat, trick, lastTrick)
    }

    /** The number of slots the store holds: all hand and Skat slots and the cards of both tricks. */
    function Count(): nat
      reads this
      requires Valid()
    {
      |hands[0]| + |hands[1]| + |hands[2]| + |skat| + |trick|
      + (match lastTrick case Some(t) => |t| case None => 0)
    }

    /** Every card the store knows the place of (see `Placed`). */
    function Iter(): (r: seq<Card>)
      reads this
      requires Valid()
      ensures forall c :: c in r <==>
        || (exists p :: Known(c) in Hand(p))
        || Known(c) in skat
        || c in trick
        || (lastTrick.Some? && c in lastTrick.value)
    {
      assert forall p :: Hand(p) == hands[0] || Hand(p) == hands[1] || Hand(p) == hands[2];
      assert Hand(Forehand) == hands[0] && Hand(Middlehand) == hands[1] && Hand(Rearhand) == hands[2];
      Placed(Snapshot())
    }

    /** The cards the store does not know the place of, in ascending index order. */
    function Unknown(): (r: seq<Card>)
      reads this
      requires Valid()
      ensures forall c :: c in r <==> c !in Iter()
      ensures forall i, j :: 0 <= i < j < |r| ==> Index(r[i]) < Index(r[j])
    {
      Unplaced(Iter(), CARD_COUNT)
    }

    /**
     * The cards not produced by `Iter`, each once, in ascending index order:
     * a table of 32 flags is cleared for every placed card, then the deck
     * is filtered by it.
     */
    method IterUnknown() returns (r: seq<Card>)
      requires Valid()
      ensures r == Unknown()
    {
      var placed := Iter();
      var table := UnplacedFlags(placed);
      r := KeepFlagged(placed, table[..]);
    }

    /**
     * Give `target` the slot `card`: a player's hand when `target` is a
     * player, the Skat when it is `None`. Nothing else changes.
     */
    method Give(target: Option<Player>, card: OptCard)
      requires Valid()
      modifies this
      ensures Valid()
      ensures target.Some? ==>
        && hands == old(hands)[PlayerIndex(target.value) := old(Hand(target.value)) + [card]]
        && skat == old(skat)
      ensures target.None? ==> skat == old(skat) + [card] && hands == old(hands)
      ensures trick == old(trick) && lastTrick == old(lastTrick)
      ensures Snapshot() == GiveTo(old(Snapshot()), target, card)
      ensures Count() == old(Count()) + 1
    {
      match target
      case Some(player) =>
        hands := hands[PlayerIndex(player) := hands[PlayerIndex(player)] + [card]];
      case None =>
        skat := skat + [card];
    }

    /**
     * Leave `p` holding `rest`, what remains of the hand once a card is
     * taken from it (the rules compute the remainder). Nothing else changes.
     */
    method Take(p: Player, rest: seq<OptCard>)
      requires Valid()
      modifies this
      ensures Valid()
      ensures hands == old(hands)[PlayerIndex(p) := rest]
      ensures skat == old(skat) && trick == old(trick) && lastTrick == old(lastTrick)
    {
      hands := hands[PlayerIndex(p) := rest];
    }

    /** Store `stored` as the last trick and start an empty trick. Nothing else changes. */
    method PutTrick(stored: seq<Card>)
      requires Valid()
      modifies this
      ensures Valid()
      ensures trick == [] && lastTrick == Some(stored)
      ensures hands == old(hands) && skat == old(skat)
    {
      trick := [];
      lastTrick := Some(stored);
    }
  }
}
