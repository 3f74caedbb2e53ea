/**
 * How the moves the engine offers relate to the moves it accepts: every
 * offered move is legal for the actor to move, and in most phases the
 * legal moves are exactly the offered ones, apart from hidden slots the
 * environment may deal, hand over or put back without naming the card.
 * Legal dealing, picking and revealing moves keep every card in at most
 * one place.
 */
module EngineProperties {
  import opened Wrappers
  import opened Cards
  import opened CardStore
  import Auction = Bidding
  import opened Declarations
  import opened Game
  import opened Engine

  /** A code is offered for a known card of `cs` exactly when it decodes to such a card. */
  lemma SlotCodeOf(rules: Rules, cs: seq<Card>, m: nat)
    requires rules.Valid()
    ensures m in SlotCodes(rules, cs) <==>
      rules.decodeSlot(m).Ok? && rules.decodeSlot(m).value.Known? && rules.decodeSlot(m).value.card in cs
  {
    if m in SlotCodes(rules, cs) {
      var c :| c in cs && m == rules.encodeSlot(Known(c));
      assert rules.decodeSlot(rules.encodeSlot(Known(c))) == Ok(Known(c));
    }
    if rules.decodeSlot(m).Ok? {
      assert rules.encodeSlot(rules.decodeSlot(m).value) == m;
    }
  }

  /** A code is offered for a card of `cs` exactly when it decodes to such a card. */
  lemma CardCodeOf(rules: Rules, cs: seq<Card>, m: nat)
    requires rules.Valid()
    ensures m in CardCodes(rules, cs) <==> rules.decodeCard(m).Ok? && rules.decodeCard(m).value in cs
  {
    if m in CardCodes(rules, cs) {
      var c :| c in cs && m == rules.encodeCard(c);
      assert rules.decodeCard(rules.encodeCard(c)) == Ok(c);
    }
    if rules.decodeCard(m).Ok? {
      assert rules.encodeCard(rules.decodeCard(m).value) == m;
    }
  }

  /** The dealing check accepts exactly the offered cards (those not placed yet) and hidden slots. */
  lemma DealOffersLegal(g: Skat, m: nat)
    requires g.Valid()
    ensures g.DealLegality(m) == Pass <==> m in g.UnknownSlotCodes() || g.rules.decodeSlot(m) == Ok(Hidden)
  {
    var unknown := g.cards.Unknown();
    SlotCodeOf(g.rules, unknown, m);
    if g.rules.decodeSlot(m).Ok? && g.rules.decodeSlot(m).value.Known? {
      var c := g.rules.decodeSlot(m).value.card;
      assert c in unknown <==> c !in g.cards.Iter();
    }
  }

  /** A dealt card is legal exactly when it is offered (a card nobody holds yet) or is a hidden slot. */
  lemma DealingMovesOffered(g: Skat, m: nat)
    requires g.Valid() && g.state.Dealing?
    ensures g.GetConcreteMoves([]).Ok?
    ensures g.IsLegalMove(Rand, m) == Pass <==>
      m in g.GetConcreteMoves([]).value || g.rules.decodeSlot(m) == Ok(Hidden)
  {
    assert g.GetConcreteMoves([]).value == g.UnknownSlotCodes();
    assert g.IsLegalMove(Rand, m) == g.DealLegality(m);
    DealOffersLegal(g, m);
  }

  /** A bidding statement is legal for the speaker exactly when it is offered. */
  lemma BiddingMovesOffered(g: Skat, m: nat)
    requires g.Valid() && g.state.Bidding?
    ensures g.GetConcreteMoves([]).Ok?
    ensures g.IsLegalMove(g.ToMove(), m) == Pass <==> m in g.GetConcreteMoves([]).value
  {
    assert g.GetConcreteMoves([]).value == g.BidOffers(g.state.bidding);
  }

  /** Under a hidden top card, the picking check accepts exactly the unplaced cards and hidden slots. */
  lemma PickUnderHiddenTop(g: Skat, m: nat)
    requires g.Valid() && g.cards.skat != [] && g.cards.skat[|g.cards.skat| - 1].Hidden?
    ensures g.PickLegality(m) == Pass <==> m in g.UnknownSlotCodes() || g.rules.decodeSlot(m) == Ok(Hidden)
  {
    assert g.PickLegality(m) == g.DealLegality(m);
    DealOffersLegal(g, m);
  }

  /** Under a known top card, the picking check accepts exactly that card and hidden slots. */
  lemma PickUnderKnownTop(g: Skat, m: nat, top: Card)
    requires g.Valid() && g.cards.skat != [] && g.cards.skat[|g.cards.skat| - 1] == Known(top)
    ensures g.PickLegality(m) == Pass <==> m in SlotCodes(g.rules, [top]) || g.rules.decodeSlot(m) == Ok(Hidden)
  {
    SlotCodeOf(g.rules, [top], m);
  }

  /** The picking check accepts exactly the offered slots and hidden ones. */
  lemma PickOffersLegal(g: Skat, m: nat)
    requires g.Valid() && g.cards.skat != []
    ensures g.PickLegality(m) == Pass <==> m in g.PickOffers() || g.rules.decodeSlot(m) == Ok(Hidden)
  {
    match g.cards.skat[|g.cards.skat| - 1]
    case Hidden =>
      PickUnderHiddenTop(g, m);
    case Known(top) =>
      assert g.PickOffers() == SlotCodes(g.rules, [top]);
      PickUnderKnownTop(g, m, top);
  }

  /** A picked-up slot is legal exactly when it is offered (the known top card, or any unplaced card under a hidden one) or hidden. */
  lemma PickingMovesOffered(g: Skat, m: nat)
    requires g.Valid() && g.state.Picking? && g.cards.skat != []
    ensures g.GetConcreteMoves([]).Ok?
    ensures g.IsLegalMove(Rand, m) == Pass <==>
      m in g.GetConcreteMoves([]).value || g.rules.decodeSlot(m) == Ok(Hidden)
  {
    assert g.GetConcreteMoves([]).value == g.PickOffers();
    assert g.IsLegalMove(Rand, m) == g.PickLegality(m);
    PickOffersLegal(g, m);
  }

  /**
   * A put-back slot is legal exactly when it is offered (a known card of
   * the declarer's hand, or an unplaced card while the hand has a hidden
   * slot) or hidden.
   */
  lemma PuttingMovesOffered(g: Skat, m: nat)
    requires g.Valid() && g.state.Putting? && g.cards.Hand(g.declarer) != []
    ensures g.GetConcreteMoves([]).Ok?
    ensures g.IsLegalMove(g.ToMove(), m) == Pass <==>
      m in g.GetConcreteMoves([]).value || g.rules.decodeSlot(m) == Ok(Hidden)
  {
    assert g.GetConcreteMoves([]).value == g.PutOffers();
    assert g.IsLegalMove(g.ToMove(), m) == g.PutLegality(m);
    PutOffersLegal(g, m);
  }

  /** The putting check accepts exactly the offered slots and hidden ones. */
  lemma PutOffersLegal(g: Skat, m: nat)
    requires g.Valid() && g.cards.Hand(g.declarer) != []
    ensures g.PutLegality(m) == Pass <==> m in g.PutOffers() || g.rules.decodeSlot(m) == Ok(Hidden)
  {
    var hand := g.cards.Hand(g.declarer);
    var unknown := g.cards.Unknown();
    var fromDeck := if Hidden in hand then unknown else [];
    assert g.PutOffers() == SlotCodes(g.rules, KnownCards(hand)) + SlotCodes(g.rules, fromDeck);
    SlotCodeOf(g.rules, KnownCards(hand), m);
    SlotCodeOf(g.rules, fromDeck, m);
    if g.rules.decodeSlot(m).Ok? && g.rules.decodeSlot(m).value.Known? {
      var c := g.rules.decodeSlot(m).value.card;
      assert c in unknown <==> c !in g.cards.Iter();
    }
  }

  /** A code is offered for a declaration of `ds` exactly when it decodes to declaring one of them. */
  lemma DeclarationCodeOf(rules: Rules, ds: seq<Declaration>, m: nat)
    requires rules.Valid()
    ensures m in DeclarationCodes(rules, ds) <==>
      rules.decodeDeclaration(m).Ok? && rules.decodeDeclaration(m).value.Declare?
      && rules.decodeDeclaration(m).value.declaration in ds
  {
    if m in DeclarationCodes(rules, ds) {
      var d :| d in ds && m == rules.encodeDeclaration(Declare(d));
      assert rules.decodeDeclaration(rules.encodeDeclaration(Declare(d))) == Ok(Declare(d));
    }
    if rules.decodeDeclaration(m).Ok? {
      assert rules.encodeDeclaration(rules.decodeDeclaration(m).value) == m;
    }
  }

  /**
   * Once the declarer's matadors are known, a declaring move is legal
   * exactly when it is offered; conceding is offered, and legal, only when
   * no declaration avoids overbidding, and then it is the only offer.
   */
  lemma DeclaringMovesOffered(g: Skat, m: nat)
    requires g.Valid() && g.state.Declaring? && g.CalculateMatadors().Some?
    ensures g.GetConcreteMoves([]).Ok?
    ensures g.IsLegalMove(g.ToMove(), m) == Pass <==> m in g.GetConcreteMoves([]).value
    ensures g.rules.encodeDeclaration(Overbidden) in g.GetConcreteMoves([]).value <==>
      g.GetConcreteMoves([]).value == [g.rules.encodeDeclaration(Overbidden)]
  {
    var codes := DeclarationCodes(g.rules, g.DeclarationOffers());
    var concede := g.rules.encodeDeclaration(Overbidden);
    assert g.GetConcreteMoves([]).value == if codes == [] then [concede] else codes;
    assert g.IsLegalMove(g.ToMove(), m) == g.DeclareLegality(m);
    DeclareOffersLegal(g, m);
    DeclarationCodeOf(g.rules, g.DeclarationOffers(), concede);
    assert g.rules.decodeDeclaration(concede) == Ok(Overbidden);
  }

  /** With the matadors known, the declaring check accepts exactly the offered declarations, and conceding exactly when none is offered. */
  lemma DeclareOffersLegal(g: Skat, m: nat)
    requires g.Valid() && g.CalculateMatadors().Some?
    ensures var codes := DeclarationCodes(g.rules, g.DeclarationOffers());
      g.DeclareLegality(m) == Pass <==>
        m in codes || (codes == [] && g.rules.decodeDeclaration(m) == Ok(Overbidden))
  {
    var mat := g.CalculateMatadors().value;
    var hand := g.declaration.IsHand();
    var ds := g.DeclarationOffers();
    assert ds == AllowedDeclarations(g.rules, g.rules.allDeclarations(hand), g.bid, mat);
    DeclarationCodeOf(g.rules, ds, m);
  }

  /** While a counted slot is hidden, every declaring move that decodes is legal, and only conceding is offered. */
  lemma DeclaringWithHiddenCards(g: Skat, m: nat)
    requires g.Valid() && g.state.Declaring? && g.CalculateMatadors().None?
    ensures g.GetConcreteMoves([]) == Ok([g.rules.encodeDeclaration(Overbidden)])
    ensures g.IsLegalMove(g.ToMove(), m) == Pass <==> g.rules.decodeDeclaration(m).Ok?
  {
  }

  /** The revealing check accepts exactly the offered cards. */
  lemma RevealOffersLegal(g: Skat, i: nat, m: nat)
    requires g.Valid() && i < |g.cards.Hand(g.declarer)|
    ensures g.RevealLegality(i, m) == Pass <==> m in g.RevealOffers(i)
  {
    var slot := g.cards.Hand(g.declarer)[i];
    if slot.Hidden? {
      var unknown := g.cards.Unknown();
      assert g.RevealOffers(i) == CardCodes(g.rules, unknown);
      CardCodeOf(g.rules, unknown, m);
      if g.rules.decodeCard(m).Ok? {
        var c := g.rules.decodeCard(m).value;
        assert c in unknown <==> c !in g.cards.Iter();
      }
    } else {
      assert g.RevealOffers(i) == CardCodes(g.rules, [slot.card]);
      CardCodeOf(g.rules, [slot.card], m);
    }
  }

  /** The card to reveal is legal exactly when it is offered: the known card of the slot, or any unplaced card under a hidden one. */
  lemma RevealingMovesOffered(g: Skat, m: nat)
    requires g.Valid() && g.state.Revealing? && g.state.next < |g.cards.Hand(g.declarer)|
    ensures g.GetConcreteMoves([]).Ok?
    ensures g.IsLegalMove(g.ToMove(), m) == Pass <==> m in g.GetConcreteMoves([]).value
  {
    assert g.GetConcreteMoves([]).value == g.RevealOffers(g.state.next);
    assert g.IsLegalMove(g.ToMove(), m) == g.RevealLegality(g.state.next, m);
    RevealOffersLegal(g, g.state.next, m);
  }

  /** A card is legal to play exactly when it is offered: one of the cards the rules allow the player to move. */
  lemma PlayingMovesOffered(g: Skat, m: nat)
    requires g.Valid() && g.state.Playing?
    ensures g.GetConcreteMoves([]).Ok?
    ensures g.IsLegalMove(g.ToMove(), m) == Pass <==> m in g.GetConcreteMoves([]).value
  {
    var allowed := g.rules.legalCards(g.cards.Snapshot(), g.state.playing.player, g.declaration);
    assert g.GetConcreteMoves([]).value == CardCodes(g.rules, allowed);
    CardCodeOf(g.rules, allowed, m);
  }

  /** Every move the engine offers is legal for the actor it names as next to move. */
  lemma OfferedMovesAreLegal(g: Skat, m: nat)
    requires g.Valid() && !g.state.Finished?
    requires g.GetConcreteMoves([]).Ok? && m in g.GetConcreteMoves([]).value
    ensures g.IsLegalMove(g.ToMove(), m) == Pass
  {
    match g.state
    case Dealing => DealingMovesOffered(g, m);
    case Bidding(_) => BiddingMovesOffered(g, m);
    case SkatDecision =>
    case Picking => PickingMovesOffered(g, m);
    case Putting =>
      PuttingMovesOffered(g, m);
    case Declaring =>
      if g.CalculateMatadors().Some? {
        DeclaringMovesOffered(g, m);
      } else {
        assert g.rules.decodeDeclaration(g.rules.encodeDeclaration(Overbidden)) == Ok(Overbidden);
      }
    case Revealing(_) => RevealingMovesOffered(g, m);
    case Playing(_) => PlayingMovesOffered(g, m);
  }

  /** Outside dealing, bidding and picking the legality of a move does not depend on who makes it. */
  lemma ActorIgnoredLater(g: Skat, a: Actor, b: Actor, m: nat)
    requires g.Valid() && !g.state.Finished?
    requires !(g.state.Dealing? || g.state.Bidding? || g.state.Picking?)
    ensures g.IsLegalMove(a, m) == g.IsLegalMove(b, m)
  {
  }

  /**
   * A legal deal keeps every card in at most one place, and adds the dealt
   * card, when it is named, to the placed cards.
   */
  twostate lemma DealingKeepsCardsDistinct(g: Skat, m: nat, r: Outcome)
    requires old(g.Valid()) && old(g.state).Dealing? && g.Valid() && g.DealEffect(m, r)
    requires old(g.IsLegalMove(Rand, m)) == Pass
    requires old(Distinct(g.cards.Iter()))
    ensures g.rules.decodeSlot(m).Ok?
    ensures multiset(g.cards.Iter()) == old(multiset(g.cards.Iter())) +
      (if g.rules.decodeSlot(m).value.Known? then multiset{g.rules.decodeSlot(m).value.card} else multiset{})
    ensures Distinct(g.cards.Iter())
  {
    var before := old(g.cards.Snapshot());
    assert old(g.cards.Iter()) == Placed(before);
    DealKeepsDistinct(before, DealTo(old(g.cards.Count())), g.rules.decodeSlot(m).value);
  }

  /**
   * When a legal deal of the last card leaves every slot of the hands and
   * the Skat known, each of the 32 cards lies in exactly one place.
   */
  twostate lemma DealingCompletesDeck(g: Skat, m: nat, r: Outcome)
    requires old(g.Valid()) && old(g.state).Dealing? && g.Valid() && g.DealEffect(m, r)
    requires old(g.IsLegalMove(Rand, m)) == Pass
    requires old(Distinct(g.cards.Iter()))
    requires g.state.Bidding? && (forall p :: Hidden !in g.cards.Hand(p)) && Hidden !in g.cards.skat
    ensures forall c :: multiset(g.cards.Iter())[c] == 1
  {
    var before := old(g.cards.Snapshot());
    assert old(g.cards.Iter()) == Placed(before);
    DealKeepsDistinct(before, DealTo(old(g.cards.Count())), g.rules.decodeSlot(m).value);
    var s := g.cards.Snapshot();
    assert s.trick == [] && s.lastTrick == None;
    forall p ensures |s.hands[PlayerIndex(p)]| == 10 && Hidden !in s.hands[PlayerIndex(p)] {
      assert g.cards.Hand(p) == s.hands[PlayerIndex(p)];
    }
    assert g.cards.Iter() == Placed(s);
    FullDealCoversDeck(s);
  }

  /**
   * A legal pick-up keeps every card in at most one place: the top Skat
   * card leaves the placed cards and the picked card joins them.
   */
  twostate lemma PickingKeepsCardsDistinct(g: Skat, m: nat, r: Outcome)
    requires old(g.Valid()) && old(g.state).Picking? && g.Valid() && g.PickEffect(m, r)
    requires old(g.IsLegalMove(Rand, m)) == Pass
    requires old(Distinct(g.cards.Iter()))
    ensures g.rules.decodeSlot(m).Ok? && old(g.cards.skat) != []
    ensures multiset(g.cards.Iter()) + multiset(KnownCards([old(g.cards.skat)[|old(g.cards.skat)| - 1]])) ==
      old(multiset(g.cards.Iter())) + multiset(KnownCards([g.rules.decodeSlot(m).value]))
    ensures Distinct(g.cards.Iter())
  {
    var before := old(g.cards.Snapshot());
    assert old(g.cards.Iter()) == Placed(before);
    assert Pop(before.skat) == before.skat[..|before.skat| - 1];
    PickKeepsDistinct(before, g.declarer, g.rules.decodeSlot(m).value);
  }

  /**
   * A legal reveal keeps every card in at most one place: naming the card
   * of a hidden slot adds that card to the placed cards, and confirming a
   * known slot changes nothing.
   */
  twostate lemma RevealingKeepsCardsDistinct(g: Skat, player: Actor, m: nat, r: Outcome)
    requires old(g.Valid()) && old(g.state).Revealing? && g.Valid() && g.RevealEffect(m, r)
    requires old(g.IsLegalMove(player, m)) == Pass
    requires old(Distinct(g.cards.Iter()))
    ensures g.rules.decodeCard(m).Ok? && old(g.state).next < |old(g.cards.Hand(g.declarer))|
    ensures multiset(g.cards.Iter()) == old(multiset(g.cards.Iter())) +
      (if old(g.cards.Hand(g.declarer))[old(g.state).next].Hidden? then multiset{g.rules.decodeCard(m).value}
       else multiset{})
    ensures Distinct(g.cards.Iter())
  {
    var before := old(g.cards.Snapshot());
    assert old(g.cards.Iter()) == Placed(before);
    RevealKeepsDistinct(before, PlayerIndex(g.declarer), old(g.state).next, g.rules.decodeCard(m).value);
  }
}
