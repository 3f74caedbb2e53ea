/**
 * What the declarer may announce, and what a finished game is worth to
 * the declarer.
 */
module Declarations {
  import opened Wrappers
  import Cards

  /** The trump mode of a suit or Grand game. */
  datatype Mode = Color(suit: Cards.Suit) | Grand

  /** The levels of a suit or Grand game; each one includes the announcements of those before it. */
  datatype Level = Simple | Hand | Schneider | Schwarz | Ouvert

  datatype Declaration =
    | Normal(mode: Mode, level: Level)
    | Null
    | NullHand
    | NullOuvert
    | NullOuvertHand
  {
    predicate IsNull() {
      !Normal?
    }

    /** Played without picking up the Skat. */
    predicate IsHand() {
      match this
      case Normal(_, level) => level != Simple
      case NullHand => true
      case NullOuvertHand => true
      case _ => false
    }

    /** Schneider was announced. */
    predicate IsSchneider() {
      Normal? && (level == Schneider || level == Schwarz || level == Ouvert)
    }

    /** Schwarz was announced. */
    predicate IsSchwarz() {
      Normal? && (level == Schwarz || level == Ouvert)
    }

    /** The declarer's hand is laid open. */
    predicate IsOuvert() {
      match this
      case Normal(_, level) => level == Ouvert
      case NullOuvert => true
      case NullOuvertHand => true
      case _ => false
    }

    /** The number a declaration converts to: the base value of its mode, or the fixed value of a Null game. */
    function Value(): nat {
      match this
      case Normal(Color(Diamonds), _) => 9
      case Normal(Color(Hearts), _) => 10
      case Normal(Color(Spades), _) => 11
      case Normal(Color(Clubs), _) => 12
      case Normal(Grand, _) => 24
      case Null => 23
      case NullHand => 35
      case NullOuvert => 46
      case NullOuvertHand => 59
    }
  }

  /** The declaration a deal starts with: not a Hand game. */
  const DEFAULT_DECLARATION: Declaration := Null

  /** A move of the Declaring phase: declare a game, or concede that every game is overbid. */
  datatype DeclarationMove = Declare(declaration: Declaration) | Overbidden

  /** The declarer's matadors (held or missing) per trump mode. */
  type Matadors = map<Mode, nat>

  /** The declarer wins a suit or Grand game with at least this many points. */
  const POINTS_WINNING: nat := 61
  /** A party with at most this many points is Schneider. */
  const POINTS_SCHNEIDER: nat := 30

  function B2N(b: bool): nat {
    if b then 1 else 0
  }

  /** The tallies of a party that took no trick are `None`. */
  predicate Won(declarerPoints: Option<nat>) {
    declarerPoints.GetOr(0) >= POINTS_WINNING
  }

  /** The tally of the losing party. */
  function LoserPoints(declarerPoints: Option<nat>, teamPoints: Option<nat>): Option<nat> {
    if Won(declarerPoints) then teamPoints else declarerPoints
  }

  /** The loser has at most 30 points. */
  predicate IsSchneiderAchieved(declarerPoints: Option<nat>, teamPoints: Option<nat>) {
    LoserPoints(declarerPoints, teamPoints).GetOr(0) <= POINTS_SCHNEIDER
  }

  /** The loser took no trick at all. */
  predicate IsSchwarzAchieved(declarerPoints: Option<nat>, teamPoints: Option<nat>) {
    LoserPoints(declarerPoints, teamPoints).None?
  }

  /** Every announced Schneider or Schwarz came true. */
  predicate AnnouncementsMet(d: Declaration, declarerPoints: Option<nat>, teamPoints: Option<nat>) {
    && (d.IsSchneider() ==> IsSchneiderAchieved(declarerPoints, teamPoints))
    && (d.IsSchwarz() ==> IsSchwarzAchieved(declarerPoints, teamPoints))
  }

  /** The multiplier of a suit or Grand game: one, plus one per flag, plus the matadors. */
  function Multiplier(d: Declaration, declarerPoints: Option<nat>, teamPoints: Option<nat>, matadors: nat): nat
  {
    var schneider := IsSchneiderAchieved(declarerPoints, teamPoints);
    var schwarz := IsSchwarzAchieved(declarerPoints, teamPoints);
    1
    + B2N(d.IsHand())
    + B2N(schneider || d.IsSchneider())
    + B2N(d.IsSchneider())
    + B2N(schwarz || d.IsSchwarz())
    + B2N(d.IsSchwarz())
    + B2N(d.IsOuvert())
    + matadors
  }

  /** The value of a suit or Grand game as played. */
  function GameValue(d: Declaration, declarerPoints: Option<nat>, teamPoints: Option<nat>, matadors: nat): nat
  {
    d.Value() * Multiplier(d, declarerPoints, teamPoints, matadors)
  }

  function Max(a: int, b: int): int {
    if a >= b then a else b
  }

  /**
   * The declarer's score at the end of the game, from the declaration, the
   * highest bid, both parties' tallies (`None`: took no trick) and the
   * declarer's matadors in the declared mode.
   *
   * A Null game is won when the declarer took no trick. A suit or Grand
   * game pays its value only when the declarer won, every announcement came
   * true and the value reached the bid; otherwise the declarer loses twice
   * the larger of value and bid.
   */
  function CalculatePoints(d: Declaration, bid: nat, declarerPoints: Option<nat>, teamPoints: Option<nat>,
                           matadors: nat): (r: int)
    ensures d.IsNull() ==> (r > 0 <==> declarerPoints.None?)
    ensures d.IsNull() ==> r == d.Value() || r == -2 * d.Value()
    ensures !d.IsNull() ==>
      var v := GameValue(d, declarerPoints, teamPoints, matadors);
      && (r > 0 <==> Won(declarerPoints) && AnnouncementsMet(d, declarerPoints, teamPoints) && v >= bid)
      && (r > 0 ==> r == v && r >= bid)
      && (r <= 0 ==> r == -2 * Max(v, bid) && r <= -2 * bid)
  {
    if d.IsNull() then
      if declarerPoints.Some? then -2 * d.Value() else d.Value()
    else
      var won := Won(declarerPoints);
      var schneider := IsSchneiderAchieved(declarerPoints, teamPoints);
      var schwarz := IsSchwarzAchieved(declarerPoints, teamPoints);
      var value := GameValue(d, declarerPoints, teamPoints, matadors);
      if won && (!d.IsSchneider() || schneider) && (!d.IsSchwarz() || schwarz) && value >= bid then
        value
      else
        -2 * Max(value, bid)
  }

  /** Taking no trick at all is also Schneider, so Schwarz scores both flags. */
  lemma SchwarzIsSchneider(declarerPoints: Option<nat>, teamPoints: Option<nat>)
    ensures IsSchwarzAchieved(declarerPoints, teamPoints) ==> IsSchneiderAchieved(declarerPoints, teamPoints)
  {
  }

  /** Each matador adds the base value once more. */
  lemma MatadorAddsBaseValue(d: Declaration, declarerPoints: Option<nat>, teamPoints: Option<nat>, matadors: nat)
    ensures GameValue(d, declarerPoints, teamPoints, matadors + 1)
         == GameValue(d, declarerPoints, teamPoints, matadors) + d.Value()
  {
  }

  /** A won Grand Hand game with three matadors and the team above Schneider is worth 24 × 5 = 120. */
  lemma GrandHandExample(declarerPoints: nat, teamPoints: nat)
    requires POINTS_WINNING <= declarerPoints && POINTS_SCHNEIDER < teamPoints
    ensures CalculatePoints(Normal(Grand, Hand), 18, Some(declarerPoints), Some(teamPoints), 3) == 120
  {
  }

  /** A Null game the declarer took a trick in costs twice its value, whatever the points. */
  lemma NullLostExample(declarerPoints: nat, teamPoints: Option<nat>, bid: nat, matadors: nat)
    ensures CalculatePoints(Null, bid, Some(declarerPoints), teamPoints, matadors) == -46
  {
  }
}
