/**
 * The bidding automaton of a Skat deal. Middlehand first calls bids to
 * Forehand, who answers; the one who passes drops out and Rearhand calls
 * to the survivor. When Middlehand and Rearhand both pass without a bid,
 * Forehand alone decides whether to play.
 */
module Bidding {
  import Cards

  /** The lowest bid there is. */
  const MINIMUM_BID: nat := 18
  /** The highest bid there is. */
  const MAXIMUM_BID: nat := 264
  /** The bid recorded before anyone has bid: one below the minimum. */
  const NO_BID: nat := 17

  datatype BiddingState =
    | MiddleCallsFore
    | ForeRespondsMiddle
    | RearCallsFore
    | ForeRespondsRear
    | RearCallsMiddle
    | MiddleRespondsRear
      /** Middlehand and Rearhand passed at once: Forehand is free to play or not. */
    | Forehand

  datatype BiddingResult =
    | Continue(next: BiddingState)
      /** Bidding is over and `declarer` plays against the other two. */
    | Finished(declarer: Cards.Player)
      /** All three passed. */
    | Draw

  /** Whether the speaker answers a call rather than making one (true for `Forehand` too). */
  function Respond(s: BiddingState): bool
  {
    match s
    case MiddleCallsFore => false
    case ForeRespondsMiddle => true
    case RearCallsFore => false
    case ForeRespondsRear => true
    case RearCallsMiddle => false
    case MiddleRespondsRear => true
    case Forehand => true
  }

  /** The player making the statement in state `s`: the only one who may move. */
  function Source(s: BiddingState): Cards.Player
  {
    match s
    case MiddleCallsFore => Cards.Player.Middlehand
    case ForeRespondsMiddle => Cards.Player.Forehand
    case RearCallsFore => Cards.Player.Rearhand
    case ForeRespondsRear => Cards.Player.Forehand
    case RearCallsMiddle => Cards.Player.Rearhand
    case MiddleRespondsRear => Cards.Player.Middlehand
    case Forehand => Cards.Player.Forehand
  }

  /**
   * The player the statement is addressed to. Nobody is addressed when
   * Forehand is left alone: the source panics there, so it is excluded.
   */
  function Target(s: BiddingState): (p: Cards.Player)
    requires s != Forehand
    ensures p != Source(s)
  {
    match s
    case MiddleCallsFore => Cards.Player.Forehand
    case ForeRespondsMiddle => Cards.Player.Middlehand
    case RearCallsFore => Cards.Player.Forehand
    case ForeRespondsRear => Cards.Player.Rearhand
    case RearCallsMiddle => Cards.Player.Middlehand
    case MiddleRespondsRear => Cards.Player.Rearhand
  }

  /** The outcome after the source of `s` passed or not; `anyBid` tells whether a bid was made yet. */
  function Next(s: BiddingState, passed: bool, anyBid: bool): BiddingResult
  {
    if passed then
      match s
      case MiddleCallsFore => Continue(RearCallsFore)
      case ForeRespondsMiddle => Continue(RearCallsMiddle)
      case RearCallsFore => if anyBid then Finished(Cards.Player.Forehand) else Continue(Forehand)
      case ForeRespondsRear => Finished(Cards.Player.Rearhand)
      case RearCallsMiddle => Finished(Cards.Player.Middlehand)
      case MiddleRespondsRear => Finished(Cards.Player.Rearhand)
      case Forehand => Draw
    else
      match s
      case MiddleCallsFore => Continue(ForeRespondsMiddle)
      case ForeRespondsMiddle => Continue(MiddleCallsFore)
      case RearCallsFore => Continue(ForeRespondsRear)
      case ForeRespondsRear => Continue(RearCallsFore)
      case RearCallsMiddle => Continue(MiddleRespondsRear)
      case MiddleRespondsRear => Continue(RearCallsMiddle)
      case Forehand => Finished(Cards.Player.Forehand)
  }

  /**
   * Whether move code `code` is a legal statement in state `s` when the
   * highest bid is `bid`: 0 passes; in a respond state 1 accepts; in a
   * call state any value above the highest bid up to the maximum is a call.
   */
  predicate CodeAllowed(s: BiddingState, bid: nat, code: nat)
  {
    if Respond(s) then code <= 1
    else code == 0 || (bid < code && code <= MAXIMUM_BID)
  }

  /**
   * The effect of move code `code` in state `s` with highest bid `bid`:
   * the automaton's outcome and the new highest bid. A code of 2 or more
   * becomes the highest bid and counts as not passing.
   */
  function Step(s: BiddingState, bid: nat, code: nat): (r: (BiddingResult, nat))
    ensures r.0 == Next(s, code == 0, bid >= MINIMUM_BID)
    ensures code < 2 ==> r.1 == bid
    ensures code >= 2 ==> r.1 == code
  {
    var anyBid := bid >= MINIMUM_BID;
    if code == 0 then (Next(s, true, anyBid), bid)
    else if code == 1 then (Next(s, false, anyBid), bid)
    else (Next(s, false, anyBid), code)
  }

  /** How far bidding has got: passes only ever move it forward. */
  function Stage(s: BiddingState): nat
  {
    match s
    case MiddleCallsFore => 0
    case ForeRespondsMiddle => 0
    case RearCallsFore => 1
    case ForeRespondsRear => 1
    case RearCallsMiddle => 1
    case MiddleRespondsRear => 1
    case Forehand => 2
  }

  /** A bound on the number of legal statements left before bidding ends. */
  function Rank(s: BiddingState, bid: nat): nat
    requires bid <= MAXIMUM_BID
  {
    (2 - Stage(s)) * 1000 + (MAXIMUM_BID - bid) * 2 + (if Respond(s) then 1 else 0)
  }

  /** A pass never returns to an earlier stage of bidding. */
  lemma PassMovesForward(s: BiddingState, anyBid: bool)
    ensures Next(s, true, anyBid).Continue? ==> Stage(Next(s, true, anyBid).next) > Stage(s)
  {
  }

  /** The deal is a draw exactly when Forehand, left alone, passes. */
  lemma DrawOnlyFromForehandPass(s: BiddingState, passed: bool, anyBid: bool)
    ensures Next(s, passed, anyBid) == Draw <==> s == Forehand && passed
  {
  }

  /** Forehand is left alone exactly when Rearhand passes before any bid was made. */
  lemma ForehandAloneAfterTwoPasses(s: BiddingState, passed: bool, anyBid: bool)
    ensures Next(s, passed, anyBid) == Continue(Forehand) <==> s == RearCallsFore && passed && !anyBid
  {
  }

  /**
   * Who becomes declarer: the audience when the speaker passes, the speaker
   * only when Forehand alone chooses to play. A pass ends bidding only once
   * one of the two callers is out and, facing Forehand, a bid was made.
   */
  lemma FinishedDeclarer(s: BiddingState, passed: bool, anyBid: bool, d: Cards.Player)
    ensures Next(s, passed, anyBid) == Finished(d) <==>
      if passed then
        && s != Forehand && d == Target(s) && Stage(s) == 1
        && (s == RearCallsFore ==> anyBid)
      else
        s == Forehand && d == Cards.Player.Forehand
  {
  }

  /** A call is answered by the player it was addressed to. */
  lemma CallIsAnswered(s: BiddingState, anyBid: bool)
    requires !Respond(s)
    ensures Next(s, false, anyBid).Continue?
    ensures var t := Next(s, false, anyBid).next;
      Respond(t) && t != Forehand && Source(t) == Target(s) && Target(t) == Source(s)
  {
  }

  /** Accepting a call hands the turn back to the caller, who must call higher or pass. */
  lemma AcceptReturnsToCaller(s: BiddingState, anyBid: bool)
    requires Respond(s) && s != Forehand
    ensures Next(s, false, anyBid).Continue?
    ensures var t := Next(s, false, anyBid).next;
      !Respond(t) && Source(t) == Target(s) && Target(t) == Source(s)
  {
  }

  /** The respond states are exactly Forehand alone and the states a call leads to. */
  lemma RespondStatesAnswerCalls(t: BiddingState, anyBid: bool)
    ensures Respond(t) <==>
      t == Forehand || exists s :: !Respond(s) && Next(s, false, anyBid) == Continue(t)
  {
    if Respond(t) && t != Forehand {
      var s := match t
        case ForeRespondsMiddle => MiddleCallsFore
        case ForeRespondsRear => RearCallsFore
        case MiddleRespondsRear => RearCallsMiddle;
      assert !Respond(s) && Next(s, false, anyBid) == Continue(t);
    }
  }

  /**
   * A legal statement keeps the highest bid within its range and never
   * lowers it; only a call (a code of 2 or more in a call state) changes
   * it, and every legal statement that does not end bidding lowers `Rank`.
   */
  lemma StepDecreasesRank(s: BiddingState, bid: nat, code: nat)
    requires NO_BID <= bid <= MAXIMUM_BID
    requires CodeAllowed(s, bid, code)
    ensures var (r, bid') := Step(s, bid, code);
      && bid <= bid' <= MAXIMUM_BID
      && (bid' != bid ==> code >= 2 && !Respond(s) && bid' == code)
      && (r.Continue? ==> Rank(r.next, bid') < Rank(s, bid))
  {
  }

  /** A sequence of legal statements none of which ends bidding. */
  ghost predicate OpenRun(s: BiddingState, bid: nat, codes: seq<nat>)
    decreases |codes|
  {
    codes == [] ||
    (var (r, bid') := Step(s, bid, codes[0]);
     && CodeAllowed(s, bid, codes[0])
     && r.Continue?
     && OpenRun(r.next, bid', codes[1..]))
  }

  /** From state `s` with highest bid `bid`, bidding ends within `Rank(s, bid)` legal statements. */
  lemma {:induction false} OpenRunBounded(s: BiddingState, bid: nat, codes: seq<nat>)
    requires NO_BID <= bid <= MAXIMUM_BID
    requires OpenRun(s, bid, codes)
    ensures |codes| <= Rank(s, bid)
    decreases |codes|
  {
    if codes != [] {
      var (r, bid') := Step(s, bid, codes[0]);
      StepDecreasesRank(s, bid, codes[0]);
      OpenRunBounded(r.next, bid', codes[1..]);
    }
  }

  /** Bidding of a fresh deal ends after at most 2494 legal statements. */
  lemma BiddingTerminates(codes: seq<nat>)
    requires OpenRun(MiddleCallsFore, NO_BID, codes)
    ensures |codes| <= 2494
  {
    OpenRunBounded(MiddleCallsFore, NO_BID, codes);
  }
}
