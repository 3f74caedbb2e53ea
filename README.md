# A verified model of the mirabel Skat rules engine

This project models the rules engine of one deal of Skat as the mirabel Skat
plugin implements it. The engine is a state machine driven by move codes:

- The environment (`PLAYER_RAND`) deals the 32 cards in the fixed dealing order (3-Skat-4-3).
- Middlehand, Forehand and Rearhand bid through a small automaton.
- The declarer decides to play Hand or pick up the Skat.
- When picking up, the environment hands over the two Skat cards and the declarer puts two back.
- The declarer then declares a game, or concedes that every game would be overbid.
- For an open (Ouvert) game, the environment reveals the declarer's cards.
- Tricks are played. After each completed trick, its points go to the declarer's tally or the team's.

The model follows the engine's own structure:

| File | Contents |
|---|---|
| `Cards.dfy` | The card domain: seats, suits, values, the 32 cards. The deck index `suit * 8 + value` and its inverse. `All`, which builds the deck with the two nested loops of `Card::all`. The count that 32 pairwise different cards are the whole deck. |
| `CardStore.dfy` | The card store: hands, Skat, trick, last trick. A `class CardStruct` whose methods update it in place. `Iter`. `IterUnknown`: clear a 32-flag table, then filter the deck. `Give`. How dealing, picking up and revealing change the placed cards, and that they never place a card twice. |
| `Bidding.dfy` | The bidding automaton (`respond`, `source`, `target`, `next`), the legality of a bidding code, and the bidding arm of `make_move` as a pure step. Termination of bidding is proved from a rank that every legal, non-final statement lowers. |
| `Declarations.dfy` | Declarations, and the end-of-deal score `calculate_points`. |
| `Game.dfy` | Actors, error codes, the game phases, the dealing order, and `Rules`: the record of rule helpers the engine calls but that are not part of this model. |
| `Engine.dfy` | `class Skat`: the engine's fields; `players_to_move`, `get_concrete_moves`, `is_legal_move` and `move_to_action` as functions; `make_move` as a method that calls one method per phase. Each phase's effect is a two-state predicate that its method and `make_move` both ensure. |
| `EngineProperties.dfy` | Lemmas relating the moves on offer to the moves accepted, phase by phase. That legal dealing, picking and revealing moves keep every card in at most one place, and that a fully known deal places each card exactly once. |

Helpers the engine calls whose code is not part of this model are fields of `Game.Rules`:

- the move-code conversions for slots, cards and declaration moves;
- `Declaration::all` and `Declaration::allowed`;
- `Matadors::from_cards`;
- `CardStruct::take`, `allowed`, `winner` and `put_trick`.

Every lemma assumes `Rules.Valid()`, which states only what the engine relies on:

- each move-code conversion is a bijection between its codes and its values;
- `Declaration::all(h)` lists exactly the declarations whose Hand flag is `h`;
- a stored trick holds the three cards of the trick.

Some small definitions the engine uses are defined outside `src/lib.rs` and `src/structures.rs`. They are not part of this model, so the model gives them bodies:

- The seat order: `Player::next` / `others`.
- The card count of the store.
- The declaration flags: `is_hand`, `is_schneider`, `is_schwarz`, `is_ouvert`, `is_null`.
- The value a declaration converts to.
- `Declaration::default()`, the declaration a deal starts with (`Declarations.DEFAULT_DECLARATION`, here `Null`). Only its flags matter: it is not a Hand game.
- The trick points of a card.

These bodies follow the seating order and the International Skat Order (Skat Ordnung):

- Diamonds 9, Hearts 10, Spades 11, Clubs 12, Grand 24.
- Null 23, Null Hand 35, Null Ouvert 46, Null Ouvert Hand 59.
- Ace 11, Ten 10, King 4, Queen 3, Jack 2.

## Model

| member | source | states |
|---|---|---|
| Cards.SuitAll | src/structures.rs:24-26 | four suits, each exactly once, in declaration order (the i-th has index i, every suit sits at its own index) |
| Cards.ValueAll | src/structures.rs:44-55 | eight values, each exactly once, in declaration order |
| Cards.Index | src/structures.rs:81-83 | the index of a card lies in [0, 32); its quotient by 8 is the suit, its remainder the value |
| Cards.IndexInjective | src/structures.rs:81-83 | distinct cards have distinct indices |
| Cards.CardAtIndex | src/structures.rs:81-83 | the card at a card's index is that card |
| Cards.IndexCardAt | src/structures.rs:81-83 | the index of the card at position i is i, so index is a bijection onto [0, 32) |
| Cards.All | src/structures.rs:65-78 | the nested loops build 32 cards with `all()[i].index() == i` and `all()[c.index()] == c` for every card: a permutation of the deck in index order |
| Cards.Next | src/lib.rs:710 | the seat to the left (`Player::next`), never the seat itself |
| Cards.Advance | src/lib.rs:716-719 | moving on n seats (`for _ in 0..w { winner = winner.next() }`) lands on the start, its next or its next-but-one seat as n is 0, 1 or 2 modulo 3 |
| Cards.Others | src/lib.rs:691-693 | the two players other than the declarer, distinct, and together with the declarer every seat |
| CardStore.CardStruct.constructor | src/structures.rs:88-95 | the default store: three empty hands, empty Skat, no trick, no last trick |
| CardStore.CardStruct.Iter | src/structures.rs:98-106 | a card is yielded iff it is a known slot of some hand or of the Skat, or lies in the trick or the last trick; hidden slots are skipped |
| CardStore.Placed | src/structures.rs:98-106 | definition: the known slots of the three hands, then of the Skat, then the trick and the last trick, as `iter` chains them; `Iter` is this function of the store |
| CardStore.GiveToPlaced | src/structures.rs:124-129 | giving a slot adds its card to the placed cards when the slot is known, and nothing when it is hidden |
| CardStore.DealKeepsDistinct | src/lib.rs:623-629 | dealing a hidden slot, or a known card that is not placed yet (the dealing check at lib.rs:754-770), keeps every card in at most one place; the placed cards gain exactly the dealt card |
| CardStore.PickKeepsDistinct | src/lib.rs:661-669 | popping the top Skat slot and giving the declarer the picked slot keeps every card in at most one place when the picked card is the known top card or, under a hidden top, not placed yet (lib.rs:800-826); the top card leaves and the picked card arrives |
| CardStore.RevealKeepsDistinct | src/lib.rs:696-704 | filling slot `i` of the declarer's hand keeps every card in at most one place when a known slot gets its own card or a hidden slot an unplaced one (lib.rs:891-914); the placed cards gain the card exactly when the slot was hidden |
| CardStore.FullDealCoversDeck | src/lib.rs:623-634 | after the 32nd card, with three hands of ten, a Skat of two, no tricks, no hidden slot and no card twice, every card of the deck is placed exactly once |
| Cards.DistinctDeckCovers | src/structures.rs:62-83 | 32 pairwise different cards are the whole deck, each card once (counted through the injective `index` onto 0..31) |
| CardStore.Unplaced | src/structures.rs:108-118 | the cards below index n that are not placed, each once, in strictly ascending index order |
| CardStore.NotPlacedByIndex | src/structures.rs:109-112 | a card is unplaced exactly when no placed card has its index (why clearing flags by index works) |
| CardStore.UnplacedFlags | src/structures.rs:109-112 | after the loop, flag n is set iff the card at index n is not placed |
| CardStore.KeepFlagged | src/structures.rs:114-117 | zipping the deck with the flags and keeping the flagged cards yields exactly the unplaced cards in index order |
| CardStore.CardStruct.Unknown | src/structures.rs:108-118 | a card is unknown iff `iter` does not yield it; unknown cards come in strictly ascending index order, so each appears once |
| CardStore.CardStruct.IterUnknown | src/structures.rs:108-118 | the two loops compute exactly `Unknown()`: the complement of `iter`, ascending |
| CardStore.CardStruct.Give | src/structures.rs:124-129 | `Some(p)` appends the slot to hand p, `None` to the Skat; every other place is unchanged and the count grows by one |
| CardStore.CardStruct.Take | src/lib.rs:671-672 | the player's hand becomes the remainder the rules' `take` computed; nothing else changes |
| CardStore.CardStruct.PutTrick | src/lib.rs:726 | the trick is emptied and the stored trick becomes the last trick; hands and Skat are unchanged |
| Bidding.Respond | src/lib.rs:129-139 | definition: the `respond` table; characterised by `Bidding.RespondStatesAnswerCalls` |
| Bidding.Source | src/lib.rs:142-152 | definition: the `source` table; `Bidding.Target` proves it differs from the addressee |
| Bidding.Next | src/lib.rs:171-194 | definition: the `next` tables for a pass and for a call or acceptance; its properties are the lemmas below |
| Bidding.CodeAllowed | src/lib.rs:771-789 | definition: 0 always; 1 only in a respond state; in a call state a value above the highest bid and at most 264; characterised by `EngineProperties.BiddingMovesOffered` |
| Bidding.Step | src/lib.rs:635-653 | the automaton steps as for a pass exactly on code 0, so accepting and bidding count alike; codes 0 and 1 keep the bid, a code of 2 or more becomes the bid |
| Bidding.Target | src/lib.rs:158-168 | the addressee is never the speaker in any state other than `Forehand` |
| Bidding.RespondStatesAnswerCalls | src/lib.rs:129-139 | `respond` holds exactly for `Forehand` and for the three states a call leads to |
| Bidding.CallIsAnswered | src/lib.rs:183-193 | a call moves to a respond state whose speaker is the addressee and whose addressee is the caller |
| Bidding.AcceptReturnsToCaller | src/lib.rs:183-193 | accepting moves back to the call state with the roles swapped |
| Bidding.PassMovesForward | src/lib.rs:172-181 | a pass that continues bidding always reaches a later stage |
| Bidding.DrawOnlyFromForehandPass | src/lib.rs:171-194 | the deal is a draw iff Forehand, left alone, passes |
| Bidding.ForehandAloneAfterTwoPasses | src/lib.rs:175-176 | the `Forehand` state is reached iff Rearhand passes in `RearCallsFore` before any bid |
| Bidding.FinishedDeclarer | src/lib.rs:171-194 | who becomes declarer, both directions: on a pass the addressee, once one caller is out (and facing Forehand only after a bid); otherwise only Forehand alone |
| Bidding.StepDecreasesRank | src/lib.rs:635-653 | a legal statement keeps the bid within [17, 264] and never lowers it; only a call code of 2 or more changes it, to that code; each continuing statement lowers the rank |
| Bidding.OpenRunBounded | src/lib.rs:635-653 | a run of legal statements none of which ends bidding is no longer than the rank of its start |
| Bidding.BiddingTerminates | src/lib.rs:378 | from the initial state and the default bid 17, bidding ends within 2494 legal statements |
| Declarations.CalculatePoints | src/lib.rs:313-363 | Null scores +value iff the declarer took no trick, else -2×value; a suit or Grand game scores its value iff won (≥ 61), every announcement met and value ≥ bid, otherwise -2×max(value, bid) |
| Declarations.SchwarzIsSchneider | src/lib.rs:331-334 | a loser without tricks is also Schneider |
| Declarations.MatadorAddsBaseValue | src/lib.rs:345-354 | each matador adds the base value once more to the game value |
| Declarations.GrandHandExample | src/lib.rs:345-362 | a won Grand Hand with three matadors and the team above 30 scores 120 |
| Declarations.NullLostExample | src/lib.rs:316-323 | a lost Null game scores -46 whatever the bid and the points |
| Game.GameState.HasDeclarer | src/lib.rs:61-66 | definition: false exactly in Dealing, Bidding and Finished |
| Game.GameState.HasDeclaration | src/lib.rs:61-77 | `has_declaration` implies `has_declarer`, and holds exactly in Revealing and Playing |
| Game.DealTo | src/lib.rs:1036-1044 | the Skat receives exactly the cards dealt at positions 9 and 10; every other position goes to a player |
| Game.DealtFirstRound | src/lib.rs:1036-1044 | after 11 cards each player holds 3 and the Skat 2 |
| Game.DealtSecondRound | src/lib.rs:1036-1044 | the next 12 cards give each player 4 and the Skat none |
| Game.DealtThirdRound | src/lib.rs:1036-1044 | the last 9 cards give each player 3 and the Skat none |
| Game.DealtByBlocks | src/lib.rs:1036-1044 | over the 32 dealing positions each player receives 10 cards and the Skat 2 |
| Game.DealtTotals | src/lib.rs:1036-1044 | a complete deal gives every player 10 cards and the Skat `SKAT_SIZE` |
| Game.DealtComplete | src/lib.rs:1036-1044 | a store in step with all 32 dealing positions holds 10 cards in every hand and 2 in the Skat |
| Game.GiveToKeepsDealt | src/lib.rs:623-629 | giving the next card where `deal_to` says keeps every place's size equal to what the dealing order has given it |
| Game.CreditTrick | src/lib.rs:715-727 | after a trick the winner leads; the trick's points go to the declarer's tally if the declarer won, otherwise the team's; the other tally is untouched and the total grows by the trick's points |
| Game.SaturatingInc | src/lib.rs:450-454 | the bid plus one below 65535, and 65535 at 65535 |
| Game.CodeRange | src/lib.rs:450-454 | the range `lo..=hi` holds exactly the codes between the bounds |
| Game.AllowedDeclarations | src/lib.rs:489-499 | a declaration is kept iff it is listed and does not overbid |
| Engine.Skat.constructor | src/lib.rs:374-385 | a fresh deal: empty store, bid 17, Forehand as placeholder declarer, default (non-Hand) declaration, Dealing |
| Engine.Skat.CalculateMatadors | src/lib.rs:285-298 | unknown iff a slot of the declarer's hand, or of the Skat when not playing Hand, is hidden; otherwise the matadors of those cards |
| Engine.Skat.ToMove | src/lib.rs:424-435 | the environment moves exactly in Dealing, Picking and Revealing; the bidding source, the declarer, or the player to play otherwise |
| Engine.Skat.PlayersToMove | src/lib.rs:424-435 | appends the actor to move, and nobody exactly when the deal is finished |
| Engine.Skat.GetConcreteMoves | src/lib.rs:437-525 | fails with InvalidState iff there is no Skat card to pick or no slot to reveal; otherwise extends the caller's moves |
| Engine.Skat.IsLegalMove | src/lib.rs:748-932 | in Dealing, Bidding and Picking a move by anyone but the actor to move fails with InvalidPlayer; any Skat decision code is legal |
| Engine.Skat.MoveToAction | src/lib.rs:951-985 | in every state, including a finished deal: others see a dealt card only if it is dealt to them, a picked-up card only if they are the declarer, a put-back card never; mover and environment see every move |
| Engine.Skat.Deal | src/lib.rs:623-634 | an undecodable code fails and changes nothing; otherwise the decoded slot goes where `deal_to(count)` says; bidding starts exactly with the 32nd card, with 10 cards in each hand and 2 in the Skat |
| Engine.Skat.DealCard | src/lib.rs:623-633 | the slot goes where `deal_to(count)` says, keeping the invariant; bidding starts exactly with the 32nd card, with 10 cards in each hand and 2 in the Skat |
| Engine.Skat.Bid | src/lib.rs:635-653 | the automaton's step: new bid and state; a finished automaton names the declarer and goes to the Skat decision; a draw finishes with no winner; the card store is unchanged |
| Engine.Skat.DecideSkat | src/lib.rs:654-660 | code 0 records Null Hand and goes to declaring; any other code goes to picking; the card store is unchanged |
| Engine.Skat.Pick | src/lib.rs:661-669 | the top Skat card is removed and the slot given to the declarer; an emptied Skat starts putting |
| Engine.Skat.Put | src/lib.rs:670-677 | the slot is taken from the declarer's hand and appended to the Skat; a full Skat starts declaring; a failed take changes nothing |
| Engine.Skat.Declare | src/lib.rs:678-695 | a declaration is fixed and leads to revealing (Ouvert) or play; Overbidden finishes the deal with exactly the two seats other than the declarer as winners; the card store is unchanged |
| Engine.Skat.Reveal | src/lib.rs:696-704 | the next slot of the declarer's hand becomes the named card; after the last slot play begins; a missing slot fails with InvalidState |
| Engine.Skat.Play | src/lib.rs:705-737 | the card is taken from the player's hand and added to the trick; the turn passes on; a third card stores the trick, credits its points to the winner's side and lets the winner lead |
| Engine.Skat.MakeMove | src/lib.rs:617-742 | keeps the engine invariant; in each phase the new state is the one that phase's step describes (`DealEffect`, `BidEffect`, `SkatDecisionEffect`, `PickEffect`, `PutEffect`, `DeclareEffect`, `RevealEffect`, `PlayEffect`, the same predicates the per-phase methods ensure, so bidding, the Skat decision and declaring leave the card store unchanged); and every move keeps `Progress`: a refused move changes nothing, phases only advance, a chosen declarer and a fixed declaration stay, only a bidding code of 2 or more changes the bid, to that code |
| Engine.Skat.BidOffers | src/lib.rs:444-457 | definition: pass, then accept in a respond state or every bid from one above the highest to 264; characterised by `EngineProperties.BiddingMovesOffered` |
| Engine.Skat.PickOffers | src/lib.rs:459-472 | definition: the known top Skat card, or every unplaced card under a hidden one; characterised by `EngineProperties.PickOffersLegal` |
| Engine.Skat.PutOffers | src/lib.rs:473-486 | definition: the known cards of the declarer's hand, then every unplaced card when the hand has a hidden slot; characterised by `EngineProperties.PutOffersLegal` |
| Engine.Skat.DeclarationOffers | src/lib.rs:487-499 | definition: with known matadors, the declarations for the Hand flag that are allowed; none while matadors are unknown; characterised by `EngineProperties.DeclareOffersLegal` |
| Engine.Skat.RevealOffers | src/lib.rs:504-514 | definition: the slot's known card, or every unplaced card for a hidden slot; characterised by `EngineProperties.RevealOffersLegal` |
| Engine.Skat.DealLegality | src/lib.rs:754-770 | definition: the slot decodes, and a known card is not placed anywhere; characterised by `EngineProperties.DealOffersLegal` |
| Engine.Skat.PickLegality | src/lib.rs:800-826 | definition: a Skat card exists; a known card is the known top card, or unplaced under a hidden one; characterised by `EngineProperties.PickOffersLegal` |
| Engine.Skat.PutLegality | src/lib.rs:828-854 | definition: the hand is not empty; a known card is in it, or unplaced while it has a hidden slot; characterised by `EngineProperties.PutOffersLegal` |
| Engine.Skat.DeclareLegality | src/lib.rs:855-890 | definition: with known matadors, a declaration keeps the Hand flag and is allowed, and Overbidden only when nothing is allowed; characterised by `EngineProperties.DeclareOffersLegal` |
| Engine.Skat.RevealLegality | src/lib.rs:891-914 | definition: the slot exists; its known card is the one named, or an unplaced card fills a hidden slot; characterised by `EngineProperties.RevealOffersLegal` |
| Engine.Skat.PlayLegality | src/lib.rs:915-927 | definition: the card is one the rules allow the player; characterised by `EngineProperties.PlayingMovesOffered` |
| EngineProperties.DealOffersLegal | src/lib.rs:754-770 | the dealing check accepts exactly the unplaced cards and hidden slots |
| EngineProperties.DealingMovesOffered | src/lib.rs:439-443 | a dealt slot is legal iff it is offered (a card nobody holds) or hidden |
| EngineProperties.BiddingMovesOffered | src/lib.rs:444-457 | a bidding code is legal for the speaker iff it is offered: pass and accept when responding; pass or any bid above the highest up to 264 when calling |
| EngineProperties.PickUnderHiddenTop | src/lib.rs:817-824 | under a hidden top card, a picked slot passes iff it is hidden or a card not placed anywhere, the same test as dealing |
| EngineProperties.PickUnderKnownTop | src/lib.rs:808-816 | under a known top card, a picked slot passes iff it is hidden or exactly that card |
| EngineProperties.PickOffersLegal | src/lib.rs:794-827 | the picking check accepts exactly the offered slots and hidden ones |
| EngineProperties.PickingMovesOffered | src/lib.rs:459-472 | a picked slot is legal iff it is offered (the known top card, or any unplaced card under a hidden one) or hidden |
| EngineProperties.PutOffersLegal | src/lib.rs:828-854 | the putting check accepts exactly the offered slots and hidden ones |
| EngineProperties.PuttingMovesOffered | src/lib.rs:473-486 | a put-back slot is legal iff it is offered (a known card of the hand, or an unplaced card while the hand has a hidden slot) or hidden |
| EngineProperties.DeclareOffersLegal | src/lib.rs:855-890 | with known matadors, the declaring check accepts exactly the offered declarations, and Overbidden exactly when none is offered |
| EngineProperties.DeclaringMovesOffered | src/lib.rs:487-503 | with known matadors a declaring move is legal iff offered; Overbidden is offered iff it is the only offer |
| EngineProperties.DeclaringWithHiddenCards | src/lib.rs:855-858 | while a counted slot is hidden only Overbidden is offered, yet every decodable declaring move is legal |
| EngineProperties.RevealOffersLegal | src/lib.rs:891-914 | the revealing check accepts exactly the offered cards |
| EngineProperties.RevealingMovesOffered | src/lib.rs:504-514 | the card to reveal is legal iff offered: the slot's known card, or any unplaced card for a hidden slot |
| EngineProperties.PlayingMovesOffered | src/lib.rs:515-520 | a card is legal to play iff offered: one the rules allow the player |
| EngineProperties.OfferedMovesAreLegal | src/lib.rs:437-525 | every offered move is legal for the actor to move, in every phase |
| EngineProperties.ActorIgnoredLater | src/lib.rs:791-793 | in SkatDecision, Putting, Declaring, Revealing and Playing, the legality of a move does not depend on who makes it |
| EngineProperties.DealingKeepsCardsDistinct | src/lib.rs:623-634 | a dealing move that `is_legal_move` accepts keeps every card in at most one place, and the placed cards gain exactly the named card |
| EngineProperties.DealingCompletesDeck | src/lib.rs:623-634 | when a legal deal of the 32nd card leaves no hidden slot in the hands or the Skat, each of the 32 cards lies in exactly one place |
| EngineProperties.PickingKeepsCardsDistinct | src/lib.rs:661-669 | a picking move that `is_legal_move` accepts keeps every card in at most one place; the old top Skat card leaves the placed cards and the picked one joins them |
| EngineProperties.RevealingKeepsCardsDistinct | src/lib.rs:696-704 | a revealing move that `is_legal_move` accepts keeps every card in at most one place; the placed cards gain the named card exactly when the slot was hidden |

## Left out

- Plugin and host glue is not modelled, because it is foreign library code: `plugin_get_game_methods!`, `generate_metadata`, `create`, `copy_from`, `player_count`, and the mirabel `Error` and `MoveDataSync` types.
  - An error is only its `ErrorCode`; the message text is dropped.
  - Move codes are unbounded naturals.
- The `todo!()` paths are not modelled, because they have no behaviour: `import_state`, `export_state`, `get_results`, `get_actions`, `PartialEq for Skat`, and every `GameState::Finished` arm.
  - `Finished` is excluded by the requires of `Engine.Skat.GetConcreteMoves`, `Engine.Skat.IsLegalMove` and `Engine.Skat.MakeMove`.
- Panics become requires, because a panicking call has no result to model:
  - the `assert_eq!(PLAYER_RAND, player)` checks of `make_move` and `move_to_action`;
  - the `expect("bid overflowed")` on a bid above 65535;
  - `deal_to` past 31, which the Dealing invariant (fewer than 32 cards placed) excludes;
  - `BiddingState::target` in the `Forehand` state.
- `calculate_points` is called at lib.rs:735 but its result is discarded, so play never reaches `Finished`.
  - `Declarations.CalculatePoints` is a pure function that nothing in `Engine.Skat.Play` uses.
- Engine.Skat.Play: does not model the end-of-deal test at lib.rs:730-734 or the `calculate_points` call it guards. So it drops the panics that call can raise.
  - `make_move` applies any bidding code without checking legality (lib.rs:640-642). So after a bid above 264 that `is_legal_move` rejects, the bid may exceed the `i16` range.
  - Above 32767, `self.bid.try_into().unwrap()` (lib.rs:353) panics.
  - Above 16384, `-2 * value.max(bid)` (lib.rs:361) overflows `i16`.
  - In those cases `Engine.Skat.Play` returns Pass where the source would panic at the end of the deal. With bids that `is_legal_move` accepts, neither can happen.
- Declarations.CalculatePoints: takes the declarer's matadors as a parameter, because `cards.played` (used at lib.rs:338) is not a field of `CardStruct` (src/structures.rs:90-95).
- Declarations.CalculatePoints: works on unbounded integers. With tallies of at most 120 and the bids of at most 264 that `is_legal_move` accepts, the `i16` arithmetic cannot overflow. The larger bids an unchecked `make_move` can record are covered in the `Engine.Skat.Play` line above.
- Cards.Others: `Player::others` is not part of this model. Its body here lists the two seats after the declarer in seating order. `Engine.Skat.DeclareEffect` promises only that the winners of a conceded deal are exactly those two seats, not their order.
- `get_concrete_move_probabilities` is not modelled, because it uses floating point.
- `get_random_move` (`moves[seed % len]`) is not modelled, because its seed comes from the host.
- Display impls, `print`, `get_move_str`, `get_move_data` and `CardStruct::sort` are not modelled, because they render or parse text, and their code is not part of this model.
- `redact_keep_state` (lib.rs:994-1001) is not modelled. It hides the other seats' cards from one observer by calling `CardStruct::redact`, whose body is not in src/structures.rs, so `CardStruct::redact` is not part of this model.
- The helpers in `Game.Rules` are parameters and are not defined here. These are the move-code conversions, `Declaration::all`/`allowed`, `Matadors::from_cards`, and `CardStruct::take`/`allowed`/`winner`/`put_trick`.
  - Properties that depend on them are proved only from `Rules.Valid()`.
  - `CardStruct::take` and `put_trick` appear as `CardStore.CardStruct.Take` and `CardStore.CardStruct.PutTrick`, which store what the rules computed.
- Engine.Skat.Put and Engine.Skat.Play: no lemma states that they keep every card in at most one place. The hand's remainder comes from the rules' `take` (`CardStruct::take` is not part of this model), and `Rules.Valid()` states no law about it; Play also depends on the rules' `allowed`. Bidding, the Skat decision and declaring leave the card store unchanged (`unchanged(cards)` in their effect predicates).
- Engine.Skat.GetConcreteMoves: the `player` argument is dropped, because the source ignores it.
- Engine.Skat.GetConcreteMoves: Overbidden is added when the caller's vector is still empty, as the source does, so a non-empty caller vector suppresses it.
- Engine.Skat.IsLegalMove: does not state which error a failed conversion gives, because the conversions are parameters.
- Player ids other than `PLAYER_RAND` and the three seats do not exist in the model (`Game.Actor`), because the host never passes them.
- The bid is a natural kept at or below 65535 by the engine invariant, instead of a `u16`. The point tallies are naturals, instead of `u8`.
