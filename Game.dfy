/**
 * The vocabulary of the game engine: who may act, the error codes a move
 * is refused with, the phases of a deal, the dealing order, and the record
 * of rule helpers the engine consults but does not define here.
 */
module Game {
  import opened Wrappers
  import opened Cards
  import opened CardStore
  import Auction = Bidding
  import opened Declarations

  /** Who acts: one of the three seats, or the environment (`PLAYER_RAND`) that deals and reveals. */
  datatype Actor = Rand | Seat(player: Player)

  datatype ErrorCode = InvalidPlayer | InvalidMove | InvalidState | InvalidInput

  datatype Result<T> = Ok(value: T) | Err(error: ErrorCode)

  /** The verdict on a move: accepted, or refused with an error code. */
  datatype Outcome = Pass | Fail(error: ErrorCode)

  /** The largest value the highest bid (a 16-bit unsigned field) can hold. */
  const U16_MAX: nat := 65535

  /**
   * The rule helpers the engine relies on whose definitions are not part of
   * this model: the move-code conversions, the list of declarations, the
   * overbidding test, the matador count, removing a card from a hand, the
   * cards a player may play, the winner of a trick and how a finished trick
   * is stored. `Valid` states the only properties the engine needs of them.
   */
  datatype Rules = Rules(
    encodeSlot: OptCard -> nat,
    decodeSlot: nat -> Result<OptCard>,
    encodeCard: Card -> nat,
    decodeCard: nat -> Result<Card>,
    encodeDeclaration: DeclarationMove -> nat,
    decodeDeclaration: nat -> Result<DeclarationMove>,
    allDeclarations: bool -> seq<Declaration>,
    allowed: (Declaration, nat, Matadors) -> bool,
    matadors: seq<Card> -> Matadors,
    take: (seq<OptCard>, OptCard) -> Result<seq<OptCard>>,
    legalCards: (Store, Player, Declaration) -> seq<Card>,
    winner: (seq<Card>, Declaration) -> nat,
    archive: (seq<Card>, Player) -> seq<Card>)
  {
    ghost predicate Valid() {
      // Each move-code conversion is a bijection between its codes and its values.
      && (forall c {:trigger decodeSlot(encodeSlot(c))} :: decodeSlot(encodeSlot(c)) == Ok(c))
      && (forall m :: decodeSlot(m).Ok? ==> encodeSlot(decodeSlot(m).value) == m)
      && (forall c {:trigger decodeCard(encodeCard(c))} :: decodeCard(encodeCard(c)) == Ok(c))
      && (forall m :: decodeCard(m).Ok? ==> encodeCard(decodeCard(m).value) == m)
      && (forall d {:trigger decodeDeclaration(encodeDeclaration(d))} :: decodeDeclaration(encodeDeclaration(d)) == Ok(d))
      && (forall m :: decodeDeclaration(m).Ok? ==> encodeDeclaration(decodeDeclaration(m).value) == m)
      // The declarations listed for a Hand flag are exactly those with that flag.
      && (forall h, d :: d in allDeclarations(h) <==> d.IsHand() == h)
      // A stored trick holds the cards of the trick.
      && (forall t, p :: |t| == PLAYER_COUNT ==> multiset(archive(t, p)) == multiset(t))
    }
  }

  /** The progress of the trick-taking phase: who is to play, and each party's tally (`None`: no trick yet). */
  datatype PlayingState = PlayingState(player: Player, declarerPoints: Option<nat>, teamPoints: Option<nat>)

  /** Forehand leads the first trick and nobody has a trick. */
  const OPENING_PLAY: PlayingState := PlayingState(Forehand, None, None)

  /** The points of both tallies together, a missing tally counting as zero. */
  function TalliedPoints(ps: PlayingState): nat {
    ps.declarerPoints.GetOr(0) + ps.teamPoints.GetOr(0)
  }

  /**
   * The play after a trick worth `points` is won by `winner`: the winner
   * leads next and the points go to the declarer's tally when the winner is
   * the declarer and to the team's tally otherwise.
   */
  function CreditTrick(ps: PlayingState, declarer: Player, winner: Player, points: nat): (r: PlayingState)
    ensures r.player == winner
    ensures TalliedPoints(r) == TalliedPoints(ps) + points
    ensures winner == declarer ==>
      && r.declarerPoints == Some(ps.declarerPoints.GetOr(0) + points)
      && r.teamPoints == ps.teamPoints
    ensures winner != declarer ==>
      && r.teamPoints == Some(ps.teamPoints.GetOr(0) + points)
      && r.declarerPoints == ps.declarerPoints
  {
    if winner == declarer then PlayingState(winner, Some(ps.declarerPoints.GetOr(0) + points), ps.teamPoints)
    else PlayingState(winner, ps.declarerPoints, Some(ps.teamPoints.GetOr(0) + points))
  }

  datatype GameState =
    | Dealing
    | Bidding(bidding: Auction.BiddingState)
      /** The declarer decides whether to pick up the Skat. */
    | SkatDecision
      /** The environment hands the declarer the Skat, top card first. */
    | Picking
      /** The declarer puts two cards back. */
    | Putting
    | Declaring
      /** The environment reveals the declarer's cards; `next` is the slot to reveal. */
    | Revealing(next: nat)
    | Playing(playing: PlayingState)
      /** The deal is over; `winners` is empty for a draw. */
    | Finished(winners: seq<Player>)
  {
    /** Bidding has chosen a declarer and the deal goes on. */
    predicate HasDeclarer() {
      !(Dealing? || Bidding? || Finished?)
    }

    /** The declared game is fixed. */
    predicate HasDeclaration(): (r: bool)
      ensures r ==> HasDeclarer()
      ensures r <==> Revealing? || Playing?
    {
      HasDeclarer() && !(SkatDecision? || Picking? || Putting? || Declaring?)
    }

    /** The phases before anything is declared. */
    predicate Undeclared() {
      Dealing? || Bidding? || SkatDecision? || Picking? || Putting?
    }

    /** The position of the phase in the course of a deal. */
    function Order(): nat {
      match this
      case Dealing => 0
      case Bidding(_) => 1
      case SkatDecision => 2
      case Picking => 3
      case Putting => 4
      case Declaring => 5
      case Revealing(_) => 6
      case Playing(_) => 7
      case Finished(_) => 8
    }
  }

  /**
   * Who receives the card dealt after `dealt` cards: three to each player,
   * two to the Skat, four to each, then three to each. `None` is the Skat.
   */
  function DealTo(dealt: nat): (r: Option<Player>)
    requires dealt < CARD_COUNT
    ensures r.None? <==> dealt == 9 || dealt == 10
  {
    if dealt <= 2 || (11 <= dealt <= 14) || (23 <= dealt <= 25) then Some(Forehand)
    else if (3 <= dealt <= 5) || (15 <= dealt <= 18) || (26 <= dealt <= 28) then Some(Middlehand)
    else if (6 <= dealt <= 8) || (19 <= dealt <= 22) || (29 <= dealt <= 31) then Some(Rearhand)
    else None
  }

  /** How many of the first `n` dealt cards went to `target`. */
  function Dealt(target: Option<Player>, n: nat): nat
    requires n <= CARD_COUNT
  {
    if n == 0 then 0 else Dealt(target, n - 1) + (if DealTo(n - 1) == target then 1 else 0)
  }

  /** Over a stretch of the deal that all goes to `to`, `Dealt` grows by one per card there. */
  lemma {:induction false} DealtBlock(t: Option<Player>, a: nat, b: nat, to: Option<Player>)
    requires a <= b <= CARD_COUNT
    requires forall i :: a <= i < b ==> DealTo(i) == to
    ensures Dealt(t, b) == Dealt(t, a) + (if to == t then b - a else 0)
    decreases b - a
  {
    if b > a {
      DealtBlock(t, a, b - 1, to);
    }
  }

  /** The first round deals three cards to each player, then two to the Skat. */
  lemma DealtFirstRound(t: Option<Player>)
    ensures Dealt(t, 11) == (if t.Some? then 3 else 2)
  {
    DealtBlock(t, 0, 3, Some(Forehand));
    DealtBlock(t, 3, 6, Some(Middlehand));
    DealtBlock(t, 6, 9, Some(Rearhand));
    DealtBlock(t, 9, 11, None);
    assert Dealt(t, 0) == 0;
    match t
    case None =>
    case Some(p) => match p case Forehand => case Middlehand => case Rearhand =>
  }

  /** The second round deals four cards to each player. */
  lemma DealtSecondRound(t: Option<Player>)
    ensures Dealt(t, 23) == Dealt(t, 11) + (if t.Some? then 4 else 0)
  {
    DealtBlock(t, 11, 15, Some(Forehand));
    DealtBlock(t, 15, 19, Some(Middlehand));
    DealtBlock(t, 19, 23, Some(Rearhand));
    match t
    case None =>
    case Some(p) => match p case Forehand => case Middlehand => case Rearhand =>
  }

  /** The last round deals three cards to each player. */
  lemma DealtThirdRound(t: Option<Player>)
    ensures Dealt(t, CARD_COUNT) == Dealt(t, 23) + (if t.Some? then 3 else 0)
  {
    DealtBlock(t, 23, 26, Some(Forehand));
    DealtBlock(t, 26, 29, Some(Middlehand));
    DealtBlock(t, 29, 32, Some(Rearhand));
    match t
    case None =>
    case Some(p) => match p case Forehand => case Middlehand => case Rearhand =>
  }

  /** The deal's blocks are three, three, three, two, four, four, four, three, three, three cards. */
  lemma DealtByBlocks(t: Option<Player>)
    ensures Dealt(t, CARD_COUNT) == (if t.Some? then 10 else 2)
  {
    DealtFirstRound(t);
    DealtSecondRound(t);
    DealtThirdRound(t);
  }

  /** A complete deal gives every player ten cards and the Skat two. */
  lemma DealtTotals()
    ensures forall p :: Dealt(Some(p), CARD_COUNT) == 10
    ensures Dealt(None, CARD_COUNT) == SKAT_SIZE
  {
    forall p ensures Dealt(Some(p), CARD_COUNT) == 10 {
      DealtByBlocks(Some(p));
    }
    DealtByBlocks(None);
  }

  /** Every place of `s` holds as many cards as the dealing order gives it among the first `n`. */
  predicate DealtSoFar(s: Store, n: nat)
    requires n <= CARD_COUNT
  {
    && |s.hands| == PLAYER_COUNT
    && (forall p :: |s.hands[PlayerIndex(p)]| == Dealt(Some(p), n))
    && |s.skat| == Dealt(None, n)
  }

  /** A store in step with the whole dealing order holds ten cards in every hand and two in the Skat. */
  lemma DealtComplete(s: Store)
    requires DealtSoFar(s, CARD_COUNT)
    ensures forall p :: |s.hands[PlayerIndex(p)]| == 10
    ensures |s.skat| == SKAT_SIZE
  {
    DealtTotals();
  }

  /** Giving the next card to the place the dealing order names keeps every place in step with the order. */
  lemma GiveToKeepsDealt(s: Store, n: nat, card: OptCard)
    requires n < CARD_COUNT && DealtSoFar(s, n)
    ensures DealtSoFar(GiveTo(s, DealTo(n), card), n + 1)
  {
    var t := GiveTo(s, DealTo(n), card);
    forall p ensures |t.hands[PlayerIndex(p)]| == Dealt(Some(p), n + 1) {
      assert |t.hands[PlayerIndex(p)]| == |s.hands[PlayerIndex(p)]| + (if DealTo(n) == Some(p) then 1 else 0);
    }
  }

  /** `s` without its last element (`Vec::pop`). */
  function Pop<T>(s: seq<T>): seq<T> {
    if s == [] then [] else s[..|s| - 1]
  }

  /** `bid + 1` on a 16-bit unsigned bid, saturating at the maximum. */
  function SaturatingInc(bid: nat): (r: nat)
    requires bid <= U16_MAX
    ensures r <= U16_MAX
    ensures bid < U16_MAX ==> r == bid + 1
    ensures bid == U16_MAX ==> r == U16_MAX
  {
    if bid < U16_MAX then bid + 1 else U16_MAX
  }

  /** The codes `lo..=hi` in ascending order. */
  function CodeRange(lo: nat, hi: nat): (r: seq<nat>)
    decreases hi - lo
    ensures forall m :: m in r <==> lo <= m <= hi
  {
    if lo > hi then [] else [lo] + CodeRange(lo + 1, hi)
  }

  /** The slot codes of known cards `cs`, in order. */
  function SlotCodes(rules: Rules, cs: seq<Card>): (r: seq<nat>)
    ensures forall c :: c in cs ==> rules.encodeSlot(Known(c)) in r
    ensures forall m :: m in r ==> exists c :: c in cs && m == rules.encodeSlot(Known(c))
  {
    if cs == [] then [] else [rules.encodeSlot(Known(cs[0]))] + SlotCodes(rules, cs[1..])
  }

  /** The card codes of `cs`, in order. */
  function CardCodes(rules: Rules, cs: seq<Card>): (r: seq<nat>)
    ensures forall c :: c in cs ==> rules.encodeCard(c) in r
    ensures forall m :: m in r ==> exists c :: c in cs && m == rules.encodeCard(c)
  {
    if cs == [] then [] else [rules.encodeCard(cs[0])] + CardCodes(rules, cs[1..])
  }

  /** The codes of declaring each of `ds`, in order. */
  function DeclarationCodes(rules: Rules, ds: seq<Declaration>): (r: seq<nat>)
    ensures |r| == |ds|
    ensures forall d :: d in ds ==> rules.encodeDeclaration(Declare(d)) in r
    ensures forall m :: m in r ==> exists d :: d in ds && m == rules.encodeDeclaration(Declare(d))
  {
    if ds == [] then [] else [rules.encodeDeclaration(Declare(ds[0]))] + DeclarationCodes(rules, ds[1..])
  }

  /** The declarations of `ds` that do not overbid `bid` with matadors `m`, in order. */
  function AllowedDeclarations(rules: Rules, ds: seq<Declaration>, bid: nat, m: Matadors): (r: seq<Declaration>)
    ensures forall d :: d in r <==> d in ds && rules.allowed(d, bid, m)
  {
    if ds == [] then []
    else (if rules.allowed(ds[0], bid, m) then [ds[0]] else []) + AllowedDeclarations(rules, ds[1..], bid, m)
  }
}
