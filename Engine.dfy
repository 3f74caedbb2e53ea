/**
 * The Skat game engine: one deal from the first dealt card through
 * bidding, the Skat, the declaration and the tricks. The environment deals
 * and reveals; the seats bid, decide, put and play.
 */
module Engine {
  import opened Wrappers
  import opened Cards
  import opened CardStore
  import Auction = Bidding
  import opened Declarations
  import opened Game

  class Skat {
    const rules: Rules
    const cards: CardStruct
    /** The highest bid so far; `NO_BID` before any. */
    var bid: nat
    /** The player against the other two, once bidding has ended. */
    var declarer: Player
    var declaration: Declaration
    var state: GameState

    ghost predicate Valid()
      reads this, cards
    {
      && rules.Valid()
      && cards.Valid()
      && bid <= U16_MAX
      && |cards.trick| < PLAYER_COUNT
      && (cards.lastTrick.Some? ==> |cards.lastTrick.value| == PLAYER_COUNT)
      // Until the Declaring phase the declaration is the default; the Skat decision can only make it Hand.
      && (state.Undeclared() ==> declaration == DEFAULT_DECLARATION)
      && (state.Declaring? ==> declaration == DEFAULT_DECLARATION || declaration == NullHand)
      // While dealing, every place holds what the dealing order has given it so far.
      && (state.Dealing? ==>
            && bid == Auction.NO_BID
            && cards.Count() < CARD_COUNT
            && cards.trick == [] && cards.lastTrick == None
            && DealtSoFar(cards.Snapshot(), cards.Count()))
    }

    /** A deal before the first card: no bid, no declaration. */
    constructor (rules: Rules)
      requires rules.Valid()
      ensures Valid()
      ensures this.rules == rules && fresh(cards)
      ensures cards.hands == [[], [], []] && cards.skat == [] && cards.trick == [] && cards.lastTrick == None
      ensures bid == Auction.NO_BID && declarer == Forehand && declaration == DEFAULT_DECLARATION
      ensures state == Dealing
    {
      this.rules := rules;
      cards := new CardStruct();
      bid := Auction.NO_BID;
      declarer := Forehand;
      declaration := DEFAULT_DECLARATION;
      state := Dealing;
    }

    /** The declarer's slots the matadors are counted from: the hand, and the Skat unless playing Hand. */
    function DeclarerSlots(): seq<OptCard>
      reads this, cards
      requires cards.Valid()
    {
      cards.Hand(declarer) + (if declaration.IsHand() then [] else cards.skat)
    }

    /** The declarer's matadors, unknown (`None`) while any of the counted slots is hidden. */
    function CalculateMatadors(): (r: Option<Matadors>)
      reads this, cards
      requires cards.Valid()
      ensures r.None? <==> Hidden in cards.Hand(declarer) || (!declaration.IsHand() && Hidden in cards.skat)
      ensures r.Some? ==> r.value == rules.matadors(KnownCards(DeclarerSlots()))
    {
      if Hidden in DeclarerSlots() then None else Some(rules.matadors(KnownCards(DeclarerSlots())))
    }

    /** The one actor who moves next in an unfinished deal. */
    function ToMove(): (a: Actor)
      reads this
      requires !state.Finished?
      ensures a == Rand <==> state.Dealing? || state.Picking? || state.Revealing?
      ensures state.Bidding? ==> a == Seat(Auction.Source(state.bidding))
      ensures state.SkatDecision? || state.Putting? || state.Declaring? ==> a == Seat(declarer)
      ensures state.Playing? ==> a == Seat(state.playing.player)
    {
      match state
      case Dealing => Rand
      case Picking => Rand
      case Revealing(_) => Rand
      case Bidding(s) => Seat(Auction.Source(s))
      case SkatDecision => Seat(declarer)
      case Putting => Seat(declarer)
      case Declaring => Seat(declarer)
      case Playing(ps) => Seat(ps.player)
    }

    /** `players` with the actor to move appended; a finished deal adds nobody. */
    function PlayersToMove(players: seq<Actor>): (r: seq<Actor>)
      reads this
      ensures state.Finished? <==> r == players
      ensures !state.Finished? ==> r == players + [ToMove()]
    {
      if state.Finished? then players else players + [ToMove()]
    }

    /**
     * `moves` followed by the codes of the moves on offer; in the Declaring
     * phase the concession `Overbidden` is added only when the result would
     * otherwise be empty. Fails when the Skat to pick from or the slot to
     * reveal is missing.
     */
    function GetConcreteMoves(moves: seq<nat>): (r: Result<seq<nat>>)
      reads this, cards
      requires Valid() && !state.Finished?
      ensures r.Err? <==>
        (state.Picking? && cards.skat == []) || (state.Revealing? && state.next >= |cards.Hand(declarer)|)
      ensures r.Err? ==> r.error == InvalidState
      ensures r.Ok? ==> |moves| <= |r.value| && r.value[..|moves|] == moves
    {
      match state
      case Dealing => Ok(moves + UnknownSlotCodes())
      case Bidding(s) => Ok(moves + BidOffers(s))
      case SkatDecision => Ok(moves + [0, 1])
      case Picking => if cards.skat == [] then Err(InvalidState) else Ok(moves + PickOffers())
      case Putting => Ok(moves + PutOffers())
      case Declaring =>
        var extended := moves + DeclarationCodes(rules, DeclarationOffers());
        Ok(if extended == [] then [rules.encodeDeclaration(Overbidden)] else extended)
      case Revealing(i) => if i >= |cards.Hand(declarer)| then Err(InvalidState) else Ok(moves + RevealOffers(i))
      case Playing(ps) => Ok(moves + CardCodes(rules, rules.legalCards(cards.Snapshot(), ps.player, declaration)))
    }

    /** The slot codes of every card not placed yet. */
    function UnknownSlotCodes(): seq<nat>
      reads this, cards
      requires Valid()
    {
      SlotCodes(rules, cards.Unknown())
    }

    /** Passing, then accepting in a respond state or every bid above the highest one in a call state. */
    function BidOffers(s: Auction.BiddingState): seq<nat>
      reads this
      requires bid <= U16_MAX
    {
      [0] + (if Auction.Respond(s) then [1] else CodeRange(SaturatingInc(bid), Auction.MAXIMUM_BID))
    }

    /** The known top card of the Skat, or every unplaced card when it is hidden. */
    function PickOffers(): seq<nat>
      reads this, cards
      requires Valid() && cards.skat != []
    {
      match cards.skat[|cards.skat| - 1]
      case Known(c) => [rules.encodeSlot(Known(c))]
      case Hidden => UnknownSlotCodes()
    }

    /** The known cards of the declarer's hand, then every unplaced card when the hand has a hidden slot. */
    function PutOffers(): seq<nat>
      reads this, cards
      requires Valid()
    {
      var hand := cards.Hand(declarer);
      SlotCodes(rules, KnownCards(hand)) + (if Hidden in hand then UnknownSlotCodes() else [])
    }

    /** The declarations for the Hand flag of the Skat decision that do not overbid, once the matadors are known. */
    function DeclarationOffers(): seq<Declaration>
      reads this, cards
      requires Valid()
    {
      match CalculateMatadors()
      case Some(m) => AllowedDeclarations(rules, rules.allDeclarations(declaration.IsHand()), bid, m)
      case None => []
    }

    /** The known card of slot `i` of the declarer's hand, or every unplaced card when it is hidden. */
    function RevealOffers(i: nat): seq<nat>
      reads this, cards
      requires Valid() && i < |cards.Hand(declarer)|
    {
      match cards.Hand(declarer)[i]
      case Known(c) => [rules.encodeCard(c)]
      case Hidden => CardCodes(rules, cards.Unknown())
    }

    /**
     * Whether `player` may make move `mov` now. Only dealing, bidding and
     * picking check the actor; the other phases accept a move from anyone.
     */
    function IsLegalMove(player: Actor, mov: nat): (r: Outcome)
      reads this, cards
      requires Valid() && !state.Finished?
      ensures (state.Dealing? || state.Picking? || state.Bidding?) && player != ToMove() ==> r == Fail(InvalidPlayer)
      ensures state.SkatDecision? ==> r == Pass
    {
      match state
      case Dealing => if player != Rand then Fail(InvalidPlayer) else DealLegality(mov)
      case Bidding(s) =>
        if player != Seat(Auction.Source(s)) then Fail(InvalidPlayer)
        else if Auction.CodeAllowed(s, bid, mov) then Pass
        else Fail(InvalidMove)
      case SkatDecision => Pass
      case Picking => if player != Rand then Fail(InvalidPlayer) else PickLegality(mov)
      case Putting => PutLegality(mov)
      case Declaring => DeclareLegality(mov)
      case Revealing(i) => RevealLegality(i, mov)
      case Playing(ps) => PlayLegality(ps.player, mov)
    }

    /** A dealt slot must decode, and a known card must not be placed yet. */
    function DealLegality(mov: nat): Outcome
      reads this, cards
      requires Valid()
    {
      match rules.decodeSlot(mov)
      case Err(e) => Fail(e)
      case Ok(Hidden) => Pass
      case Ok(Known(c)) => if c in cards.Iter() then Fail(InvalidMove) else Pass
    }

    /** There must be a Skat card to pick; a known card must be the top card, or unplaced when the top card is hidden. */
    function PickLegality(mov: nat): Outcome
      reads this, cards
      requires Valid()
    {
      if cards.skat == [] then Fail(InvalidState)
      else
        match rules.decodeSlot(mov)
        case Err(e) => Fail(e)
        case Ok(Hidden) => Pass
        case Ok(Known(c)) =>
          match cards.skat[|cards.skat| - 1]
          case Known(top) => if c != top then Fail(InvalidMove) else Pass
          case Hidden => if c in cards.Iter() then Fail(InvalidMove) else Pass
    }

    /**
     * The declarer's hand must not be empty; a known card must be in it, or,
     * when the hand has a hidden slot, not placed anywhere yet.
     */
    function PutLegality(mov: nat): Outcome
      reads this, cards
      requires Valid()
    {
      var hand := cards.Hand(declarer);
      if hand == [] then Fail(InvalidState)
      else
        match rules.decodeSlot(mov)
        case Err(e) => Fail(e)
        case Ok(Hidden) => Pass
        case Ok(Known(c)) =>
          if Known(c) in hand then Pass
          else if Hidden in hand then (if c in cards.Iter() then Fail(InvalidMove) else Pass)
          else Fail(InvalidMove)
    }

    /**
     * Once the matadors are known, a declaration must keep the Hand flag of
     * the Skat decision and must not overbid, and conceding is only for when
     * every declaration would overbid.
     */
    function DeclareLegality(mov: nat): Outcome
      reads this, cards
      requires Valid()
    {
      match rules.decodeDeclaration(mov)
      case Err(e) => Fail(e)
      case Ok(dm) =>
        match CalculateMatadors()
        case None => Pass
        case Some(m) =>
          match dm
          case Declare(d) =>
            if d.IsHand() != declaration.IsHand() then Fail(InvalidMove)
            else if !rules.allowed(d, bid, m) then Fail(InvalidMove)
            else Pass
          case Overbidden =>
            if AllowedDeclarations(rules, rules.allDeclarations(declaration.IsHand()), bid, m) != [] then
              Fail(InvalidMove)
            else Pass
    }

    /** Slot `i` of the declarer's hand must exist; its known card must be the one named, or an unplaced card fills a hidden slot. */
    function RevealLegality(i: nat, mov: nat): Outcome
      reads this, cards
      requires Valid()
    {
      match rules.decodeCard(mov)
      case Err(e) => Fail(e)
      case Ok(c) =>
        var hand := cards.Hand(declarer);
        if i >= |hand| then Fail(InvalidState)
        else
          match hand[i]
          case Hidden => if c in cards.Iter() then Fail(InvalidMove) else Pass
          case Known(t) => if c != t then Fail(InvalidMove) else Pass
    }

    /** The card must be one the rules allow `player` to play. */
    function PlayLegality(player: Player, mov: nat): Outcome
      reads this, cards
      requires Valid()
    {
      match rules.decodeCard(mov)
      case Err(e) => Fail(e)
      case Ok(c) => if c in rules.legalCards(cards.Snapshot(), player, declaration) then Pass else Fail(InvalidMove)
    }

    /**
     * What `target` learns of move `mov` made by `player`: a dealt card only
     * when it is dealt to `target`, a picked-up card only when `target` is
     * the declarer, a put-back card never; every other move in full. The
     * mover and the environment see every move.
     */
    function MoveToAction(player: Actor, mov: nat, target: Actor): (r: nat)
      reads this, cards
      requires Valid()
      requires (state.Dealing? || state.Picking?) && player != target && target != Rand ==> player == Rand
      ensures r == mov || r == rules.encodeSlot(Hidden)
      ensures player == target || target == Rand ==> r == mov
      ensures !(state.Dealing? || state.Picking? || state.Putting?) ==> r == mov
      ensures state.Dealing? && player != target && target.Seat? ==>
        r == (if DealTo(cards.Count()) == Some(target.player) then mov else rules.encodeSlot(Hidden))
      ensures state.Picking? && player != target && target.Seat? ==>
        r == (if target.player == declarer then mov else rules.encodeSlot(Hidden))
      ensures state.Putting? && player != target && target.Seat? ==> r == rules.encodeSlot(Hidden)
    {
      if player == target || target == Rand then mov
      else if state.Dealing? then (if DealTo(cards.Count()) == Some(target.player) then mov else rules.encodeSlot(Hidden))
      else if state.Picking? then (if declarer == target.player then mov else rules.encodeSlot(Hidden))
      else if state.Putting? then rules.encodeSlot(Hidden)
      else mov
    }

    /**
     * What every move keeps: a refused move changes nothing; phases only
     * ever advance; the declarer, once chosen, and the declaration, once
     * fixed, stay; only a bidding code of 2 or more changes the bid, to
     * that code.
     */
    twostate predicate Progress(mov: nat, r: Outcome)
      reads this, cards
    {
      && (r.Fail? ==> unchanged(this, cards))
      && old(state).Order() <= state.Order()
      && (old(state).HasDeclarer() ==> declarer == old(declarer))
      && (old(state).HasDeclaration() ==> declaration == old(declaration))
      && (bid != old(bid) ==> old(state).Bidding? && mov >= 2 && bid == mov)
    }

    /**
     * What dealing the slot of move `mov` did: an undecodable code fails and
     * changes nothing; otherwise the slot went where the dealing order puts
     * the next card, and with the 32nd card bidding started with ten cards
     * in every hand and two in the Skat.
     */
    twostate predicate DealEffect(mov: nat, r: Outcome)
      reads this, cards
      requires old(Valid()) && old(state).Dealing? && Valid()
    {
      && (rules.decodeSlot(mov).Err? ==> r == Fail(rules.decodeSlot(mov).error) && unchanged(this, cards))
      && (rules.decodeSlot(mov).Ok? ==>
            && r == Pass
            && cards.Snapshot() == GiveTo(old(cards.Snapshot()), DealTo(old(cards.Count())), rules.decodeSlot(mov).value)
            && state == (if old(cards.Count()) + 1 >= CARD_COUNT then Bidding(Auction.MiddleCallsFore) else Dealing)
            && bid == old(bid) && declarer == old(declarer) && declaration == old(declaration))
      && (state.Bidding? ==> (forall p :: |cards.Hand(p)| == 10) && |cards.skat| == SKAT_SIZE)
    }

    /**
     * Deal the card of move `mov` to the place the dealing order names for
     * the next card; after the 32nd card bidding starts.
     */
    method Deal(mov: nat) returns (r: Outcome)
      requires Valid() && state.Dealing?
      modifies this, cards
      ensures Valid()
      ensures DealEffect(mov, r)
      ensures Progress(mov, r)
    {
      match rules.decodeSlot(mov)
      case Err(e) =>
        r := Fail(e);
      case Ok(card) =>
        DealCard(card);
        r := Pass;
    }

    /**
     * Give `card` to the place the dealing order names for the next card;
     * with the 32nd card bidding starts, every hand holding ten cards and
     * the Skat two.
     */
    method DealCard(card: OptCard)
      requires Valid() && state.Dealing?
      modifies this, cards
      ensures Valid()
      ensures cards.Snapshot() == GiveTo(old(cards.Snapshot()), DealTo(old(cards.Count())), card)
      ensures state == (if old(cards.Count()) + 1 >= CARD_COUNT then Bidding(Auction.MiddleCallsFore) else Dealing)
      ensures bid == old(bid) && declarer == old(declarer) && declaration == old(declaration)
      ensures state.Bidding? ==> (forall p :: |cards.Hand(p)| == 10) && |cards.skat| == SKAT_SIZE
    {
      var dealt := cards.Count();
      GiveToKeepsDealt(cards.Snapshot(), dealt, card);
      cards.Give(DealTo(dealt), card);
      if dealt + 1 >= CARD_COUNT {
        DealtComplete(cards.Snapshot());
        state := Bidding(Auction.MiddleCallsFore);
      }
    }

    /**
     * What a bidding statement did: the automaton took its step with the new
     * highest bid; a finished automaton named the declarer and moved to the
     * Skat decision, a draw ended the deal with no winner. The cards stay.
     */
    twostate predicate BidEffect(mov: nat, r: Outcome)
      reads this, cards
      requires old(state).Bidding?
    {
      var (res, bid') := Auction.Step(old(state).bidding, old(bid), mov);
      && r == Pass
      && unchanged(cards)
      && bid == bid' && declaration == old(declaration)
      && match res
         case Continue(next) => state == Bidding(next) && declarer == old(declarer)
         case Finished(p) => state == SkatDecision && declarer == p
         case Draw => state == Finished([]) && declarer == old(declarer)
    }

    /**
     * A statement in bidding: 0 passes, 1 accepts, a larger code bids that
     * value. The automaton moves on; when it finishes, its declarer moves on
     * to the Skat decision, and a draw ends the deal with no winner.
     */
    method Bid(mov: nat) returns (r: Outcome)
      requires Valid() && state.Bidding?
      requires mov >= 2 ==> mov <= U16_MAX
      modifies this
      ensures Valid()
      ensures BidEffect(mov, r)
      ensures Progress(mov, r)
    {
      var s := state.bidding;
      var anyBid := bid >= Auction.MINIMUM_BID;
      var next;
      if mov == 0 {
        next := Auction.Next(s, true, anyBid);
      } else if mov == 1 {
        next := Auction.Next(s, false, anyBid);
      } else {
        bid := mov;
        next := Auction.Next(s, false, anyBid);
      }
      match next {
        case Continue(t) =>
          state := Bidding(t);
        case Finished(p) =>
          declarer := p;
          state := SkatDecision;
        case Draw =>
          state := Finished([]);
      }
      r := Pass;
    }

    /**
     * What the Skat decision did: code 0 recorded Hand as Null Hand and moved
     * to declaring, any other code to picking. The cards stay.
     */
    twostate predicate SkatDecisionEffect(mov: nat, r: Outcome)
      reads this, cards
    {
      && r == Pass
      && unchanged(cards)
      && bid == old(bid) && declarer == old(declarer)
      && (mov == 0 ==> declaration == NullHand && state == Declaring)
      && (mov != 0 ==> declaration == old(declaration) && state == Picking)
    }

    /** Code 0 plays Hand (recorded as a Null Hand declaration) and goes to declaring; any other code picks up the Skat. */
    method DecideSkat(mov: nat) returns (r: Outcome)
      requires Valid() && state.SkatDecision?
      modifies this
      ensures Valid()
      ensures SkatDecisionEffect(mov, r)
      ensures Progress(mov, r)
    {
      if mov == 0 {
        declaration := NullHand;
        state := Declaring;
      } else {
        state := Picking;
      }
      r := Pass;
    }

    /**
     * What picking up did: an undecodable code fails and changes nothing;
     * otherwise the top Skat card left the Skat, the slot of `mov` joined the
     * declarer's hand, and an emptied Skat moved on to putting.
     */
    twostate predicate PickEffect(mov: nat, r: Outcome)
      reads this, cards
      requires old(Valid()) && Valid()
    {
      && (rules.decodeSlot(mov).Err? ==> r == Fail(rules.decodeSlot(mov).error) && unchanged(this, cards))
      && (rules.decodeSlot(mov).Ok? ==>
            && r == Pass
            && cards.Snapshot() ==
               GiveTo(old(cards.Snapshot()).(skat := Pop(old(cards.skat))), Some(declarer), rules.decodeSlot(mov).value)
            && state == (if cards.skat == [] then Putting else Picking)
            && bid == old(bid) && declarer == old(declarer) && declaration == old(declaration))
    }

    /** The top card of the Skat goes to the declarer's hand as the slot of move `mov`; an empty Skat ends picking. */
    method Pick(mov: nat) returns (r: Outcome)
      requires Valid() && state.Picking?
      modifies this, cards
      ensures Valid()
      ensures PickEffect(mov, r)
      ensures Progress(mov, r)
    {
      match rules.decodeSlot(mov)
      case Err(e) =>
        r := Fail(e);
      case Ok(card) =>
        cards.skat := Pop(cards.skat);
        cards.Give(Some(declarer), card);
        if cards.skat == [] {
          state := Putting;
        }
        r := Pass;
    }

    /**
     * What putting back did: a refused move changes nothing; otherwise the
     * slot of `mov` left the declarer's hand as the rules' `take` says and
     * joined the Skat, and a full Skat moved on to declaring.
     */
    twostate predicate PutEffect(mov: nat, r: Outcome)
      reads this, cards
      requires old(Valid()) && Valid()
    {
      && (r.Fail? ==> unchanged(this, cards))
      && (rules.decodeSlot(mov).Err? ==> r == Fail(rules.decodeSlot(mov).error))
      && (rules.decodeSlot(mov).Ok? ==>
            var card := rules.decodeSlot(mov).value;
            var taken := rules.take(old(cards.Hand(declarer)), card);
            && (taken.Err? ==> r == Fail(taken.error))
            && (taken.Ok? ==>
                  && r == Pass
                  && cards.Snapshot() == old(cards.Snapshot()).(
                       hands := old(cards.hands)[PlayerIndex(declarer) := taken.value],
                       skat := old(cards.skat) + [card])
                  && state == (if |cards.skat| >= SKAT_SIZE then Declaring else Putting)
                  && bid == old(bid) && declarer == old(declarer) && declaration == old(declaration)))
    }

    /** The declarer moves the slot of move `mov` from the hand to the Skat; a full Skat ends putting. */
    method Put(mov: nat) returns (r: Outcome)
      requires Valid() && state.Putting?
      modifies this, cards
      ensures Valid()
      ensures PutEffect(mov, r)
      ensures Progress(mov, r)
    {
      match rules.decodeSlot(mov)
      case Err(e) =>
        r := Fail(e);
      case Ok(card) =>
        var taken := rules.take(cards.Hand(declarer), card);
        if taken.Err? {
          r := Fail(taken.error);
          return;
        }
        cards.Take(declarer, taken.value);
        cards.Give(None, card);
        if |cards.skat| >= SKAT_SIZE {
          state := Declaring;
        }
        r := Pass;
    }

    /**
     * What declaring did: an undecodable code fails and changes nothing; a
     * declaration was fixed and led to revealing (open games) or to the
     * first trick; conceding ended the deal, won by exactly the two seats
     * other than the declarer. The cards stay.
     */
    twostate predicate DeclareEffect(mov: nat, r: Outcome)
      reads this, cards
    {
      && unchanged(cards)
      && (rules.decodeDeclaration(mov).Err? ==> r == Fail(rules.decodeDeclaration(mov).error) && unchanged(this))
      && (rules.decodeDeclaration(mov).Ok? ==>
            && r == Pass
            && bid == old(bid) && declarer == old(declarer)
            && match rules.decodeDeclaration(mov).value
               case Declare(d) =>
                 && declaration == d
                 && state == (if d.IsOuvert() then Revealing(0) else Playing(OPENING_PLAY))
               case Overbidden =>
                 && declaration == old(declaration) && state.Finished?
                 && |state.winners| == 2 && (forall q :: q in state.winners <==> q != declarer))
    }

    /**
     * The declaration of move `mov` is fixed: an open game goes on to
     * revealing the declarer's cards, any other to the first trick. Conceding
     * that every game is overbid ends the deal, won by the other two.
     */
    method Declare(mov: nat) returns (r: Outcome)
      requires Valid() && state.Declaring?
      modifies this
      ensures Valid()
      ensures DeclareEffect(mov, r)
      ensures Progress(mov, r)
    {
      match rules.decodeDeclaration(mov)
      case Err(e) =>
        r := Fail(e);
      case Ok(Declare(d)) =>
        declaration := d;
        state := if d.IsOuvert() then Revealing(0) else Playing(OPENING_PLAY);
        r := Pass;
      case Ok(Overbidden) =>
        state := Finished(Others(declarer));
        r := Pass;
    }

    /**
     * What revealing did: a refused move changes nothing, and a missing slot
     * fails with `InvalidState`; otherwise the next slot of the declarer's
     * hand became the card of `mov`, and after the last slot play began.
     */
    twostate predicate RevealEffect(mov: nat, r: Outcome)
      reads this, cards
      requires old(Valid()) && old(state).Revealing? && Valid()
    {
      && (r.Fail? ==> unchanged(this, cards))
      && (rules.decodeCard(mov).Err? ==> r == Fail(rules.decodeCard(mov).error))
      && (rules.decodeCard(mov).Ok? && old(state).next >= |old(cards.Hand(declarer))| ==> r == Fail(InvalidState))
      && (rules.decodeCard(mov).Ok? && old(state).next < |old(cards.Hand(declarer))| ==>
            var i := old(state).next;
            && r == Pass
            && cards.Snapshot() == old(cards.Snapshot()).(
                 hands := old(cards.hands)[PlayerIndex(declarer) :=
                                             old(cards.Hand(declarer))[i := Known(rules.decodeCard(mov).value)]])
            && state == (if i + 1 >= |cards.Hand(declarer)| then Playing(OPENING_PLAY) else Revealing(i + 1))
            && bid == old(bid) && declarer == old(declarer) && declaration == old(declaration))
    }

    /** The card of move `mov` fills the declarer's next slot to reveal; after the last slot play begins. */
    method Reveal(mov: nat) returns (r: Outcome)
      requires Valid() && state.Revealing?
      modifies this, cards
      ensures Valid()
      ensures RevealEffect(mov, r)
      ensures Progress(mov, r)
    {
      match rules.decodeCard(mov)
      case Err(e) =>
        r := Fail(e);
      case Ok(card) =>
        var i := state.next;
        var hand := cards.Hand(declarer);
        if i >= |hand| {
          r := Fail(InvalidState);
          return;
        }
        hand := hand[i := Known(card)];
        cards.hands := cards.hands[PlayerIndex(declarer) := hand];
        state := if i + 1 >= |hand| then Playing(OPENING_PLAY) else Revealing(i + 1);
        r := Pass;
    }

    /**
     * What playing a card did: a refused move changes nothing; otherwise the
     * card left the player's hand as the rules' `take` says and joined the
     * trick, and the turn passed on. A third card completed the trick: it
     * became the last trick, its points were credited to the winner's side,
     * and the winner leads.
     */
    twostate predicate PlayEffect(mov: nat, r: Outcome)
      reads this, cards
      requires old(Valid()) && old(state).Playing? && Valid()
    {
      && (r.Fail? ==> unchanged(this, cards))
      && (rules.decodeCard(mov).Err? ==> r == Fail(rules.decodeCard(mov).error))
      && (rules.decodeCard(mov).Ok? ==>
            var card := rules.decodeCard(mov).value;
            var ps := old(state).playing;
            var taken := rules.take(old(cards.Hand(ps.player)), Known(card));
            var trick := old(cards.trick) + [card];
            var next := Next(ps.player);
            && (taken.Err? ==> r == Fail(taken.error))
            && (taken.Ok? ==>
                  && r == Pass
                  && bid == old(bid) && declarer == old(declarer) && declaration == old(declaration)
                  && cards.hands == old(cards.hands)[PlayerIndex(ps.player) := taken.value]
                  && cards.skat == old(cards.skat)
                  && (|trick| < PLAYER_COUNT ==>
                        && cards.trick == trick && cards.lastTrick == old(cards.lastTrick)
                        && state == Playing(ps.(player := next)))
                  && (|trick| == PLAYER_COUNT ==>
                        var winner := Advance(next, rules.winner(trick, declaration));
                        && cards.trick == [] && cards.lastTrick == Some(rules.archive(trick, next))
                        && state == Playing(CreditTrick(ps, declarer, winner, SumPoints(trick))))))
    }

    /**
     * The player to move plays the card of move `mov` to the trick and the
     * turn passes on. The third card completes the trick: its points go to
     * the declarer's tally when the declarer wins it and to the team's
     * otherwise, it becomes the last trick, and its winner leads next.
     */
    method Play(mov: nat) returns (r: Outcome)
      requires Valid() && state.Playing?
      modifies this, cards
      ensures Valid()
      ensures PlayEffect(mov, r)
      ensures Progress(mov, r)
    {
      match rules.decodeCard(mov)
      case Err(e) =>
        r := Fail(e);
      case Ok(card) =>
        var ps := state.playing;
        var taken := rules.take(cards.Hand(ps.player), Known(card));
        if taken.Err? {
          r := Fail(taken.error);
          return;
        }
        var trick := cards.trick + [card];
        var next := Next(ps.player);
        cards.Take(ps.player, taken.value);
        r := Pass;
        if |trick| < PLAYER_COUNT {
          cards.trick := trick;
          state := Playing(ps.(player := next));
        } else {
          var winner := Advance(next, rules.winner(trick, declaration));
          var stored := rules.archive(trick, next);
          assert |stored| == |multiset(stored)| == |multiset(trick)| == PLAYER_COUNT;
          cards.PutTrick(stored);
          state := Playing(CreditTrick(ps, declarer, winner, SumPoints(trick)));
        }
    }

    /**
     * Make move `mov` for `player` in the current phase, with the effect the
     * phase's own step describes. A refused move changes nothing; phases
     * only ever advance; the declarer, once chosen, and the declaration,
     * once fixed, stay; only bidding changes the bid.
     */
    method MakeMove(player: Actor, mov: nat) returns (r: Outcome)
      requires Valid() && !state.Finished?
      requires state.Dealing? || state.Picking? ==> player == Rand
      requires state.Bidding? && mov >= 2 ==> mov <= U16_MAX
      modifies this, cards
      ensures Valid()
      ensures Progress(mov, r)
      ensures old(state).Dealing? ==> DealEffect(mov, r)
      ensures old(state).Bidding? ==> BidEffect(mov, r)
      ensures old(state).SkatDecision? ==> SkatDecisionEffect(mov, r)
      ensures old(state).Picking? ==> PickEffect(mov, r)
      ensures old(state).Putting? ==> PutEffect(mov, r)
      ensures old(state).Declaring? ==> DeclareEffect(mov, r)
      ensures old(state).Revealing? ==> RevealEffect(mov, r)
      ensures old(state).Playing? ==> PlayEffect(mov, r)
    {
      match state
      case Dealing => r := Deal(mov);
      case Bidding(_) => r := Bid(mov);
      case SkatDecision => r := DecideSkat(mov);
      case Picking => r := Pick(mov);
      case Putting => r := Put(mov);
      case Declaring => r := Declare(mov);
      case Revealing(_) => r := Reveal(mov);
      case Playing(_) => r := Play(mov);
    }
  }
}
