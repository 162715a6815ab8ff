# Card-game primitives

A Dafny model of the value vocabulary of a four-seat trick-taking card game
(`src/primitives/src/primitives.rs`). It covers:

- the closed enumerations `Suit`, `Rank`, `HandIdentifier` and `PlayerName`;
- the `Card` record of a suit and a rank;
- the derived total orders of suits, ranks, hands and cards;
- the `Display` texts of suits, ranks and cards;
- the table topology: `next`, `partner`, `player_name` and `primary_hand`;
- the `Sequence` enumerations of each enum, and the 52-card deck built from them.

The system is pure, and so is the model: datatypes, functions and lemmas, with
no state. Each ordered enum gets an explicit ordinal (its position in the declaration),
and each derived `Ord` becomes a three-way comparison on those ordinals
(`SuitCmp`, `RankCmp`, `HandCmp`). The card comparison `CardCmp` follows the
derived lexicographic comparison: suits first, ranks only when the suits are
equal. Its contract states that it equals a comparison of the single card ordinal
`13 * suit + rank`.

Files:

- `ordering.dfy`: module `Ordering`. It holds the three-way result (`Less`,
  `Equal`, `Greater`), a comparison of naturals, and the predicate
  `IsTotalOrder`.
- `primitives.dfy`: module `Primitives`. It holds the entities, the
  operations and the lemmas.

## Model

| member | source | states |
|---|---|---|
| Primitives.SuitOrdinal | src/primitives/src/primitives.rs:22-28 | each suit has a position below 4 in declaration order |
| Primitives.AllSuits | src/primitives/src/primitives.rs:22-28 | the suit enumeration has four entries, and entry i is the suit at position i, so it runs Clubs, Diamonds, Hearts, Spades |
| Primitives.SuitEnumerated | src/primitives/src/primitives.rs:22-28 | every suit appears in the enumeration, at the index of its position |
| Primitives.SuitCmp | src/primitives/src/primitives.rs:19-28 | two suits compare Equal exactly when they are the same suit, and Less exactly when the first is listed before the second in the suit enumeration |
| Primitives.SuitOrder | src/primitives/src/primitives.rs:19-28 | Clubs < Diamonds < Hearts < Spades; Clubs is the least suit and Spades the greatest |
| Primitives.SuitText | src/primitives/src/primitives.rs:30-43 | a suit displays as exactly one character: ♣, ♦, ♥, ♠ for Clubs, Diamonds, Hearts, Spades in turn |
| Primitives.SuitTextInjective | src/primitives/src/primitives.rs:30-43 | distinct suits have distinct glyphs |
| Primitives.RankOrdinal | src/primitives/src/primitives.rs:46-61 | each rank has a position below 13 in declaration order |
| Primitives.AllRanks | src/primitives/src/primitives.rs:46-61 | the rank enumeration has thirteen entries, and entry i is the rank at position i |
| Primitives.RankEnumerated | src/primitives/src/primitives.rs:46-61 | every rank appears in the enumeration, at the index of its position |
| Primitives.RankCmp | src/primitives/src/primitives.rs:45-61 | two ranks compare Equal exactly when they are the same rank, and Less exactly when the first is listed before the second in the rank enumeration |
| Primitives.RankOrder | src/primitives/src/primitives.rs:45-61 | Two is the least rank and Ace the greatest; the ranks run Two < Three < ... < Ten < Jack < Queen < King < Ace |
| Primitives.EnumOrdersTotal | src/primitives/src/primitives.rs:19-118 | the suit, rank and hand comparisons are strict total orders: Equal exactly on equal values, reversed when swapped, transitive |
| Primitives.OrdinalsInjective | src/primitives/src/primitives.rs:22-118 | distinct suits, distinct ranks and distinct hands have distinct positions |
| Primitives.RankText | src/primitives/src/primitives.rs:63-85 | a numeric rank displays as the decimal digits of its value (position + 2); a face rank displays as one letter, J, Q, K, A for Jack, Queen, King, Ace in turn; only Ten takes two characters |
| Primitives.RankTextInjective | src/primitives/src/primitives.rs:63-85 | distinct ranks have distinct texts |
| Primitives.NewCard | src/primitives/src/primitives.rs:101-105 | the new card has exactly the given suit and the given rank |
| Primitives.CardText | src/primitives/src/primitives.rs:95-99 | a card's text is its rank text followed by its suit glyph, with no separator |
| Primitives.CardTextInjective | src/primitives/src/primitives.rs:95-99 | two cards with the same text are the same card |
| Primitives.CardTextSamples | src/primitives/src/primitives.rs:95-99 | the Ace of Spades displays as "A♠" and the Ten of Clubs as "10♣" |
| Primitives.CardOrdinal | src/primitives/src/primitives.rs:87-93 | every card has a position below 52 in suit-major order |
| Primitives.CardCmp | src/primitives/src/primitives.rs:87-93 | the derived card comparison (suit first, then rank) equals the comparison of the card positions 13 * suit + rank |
| Primitives.CardOrdinalInjective | src/primitives/src/primitives.rs:87-93 | two cards have the same position exactly when they are equal |
| Primitives.SuitDominatesRank | src/primitives/src/primitives.rs:87-93 | a card of a lower suit is below a card of a higher suit, whatever the ranks |
| Primitives.SameSuitByRank | src/primitives/src/primitives.rs:87-93 | within one suit, cards compare exactly as their ranks |
| Primitives.CardEqualIff | src/primitives/src/primitives.rs:89-93 | two cards compare Equal exactly when both their suits and their ranks are equal |
| Primitives.CardOrderTotal | src/primitives/src/primitives.rs:87-93 | the card comparison is a strict total order |
| Primitives.AllCards | src/primitives/src/primitives.rs:101-105 | pairing every suit with every rank via NewCard gives 52 cards |
| Primitives.AllCardsAt | src/primitives/src/primitives.rs:101-105 | entry i of the deck is the card at position i |
| Primitives.AllCardsComplete | src/primitives/src/primitives.rs:87-105 | the deck's 52 cards are pairwise distinct, it contains every card, and it is strictly ascending in card order |
| Primitives.DeckSize | src/primitives/src/primitives.rs:87-105 | the deck contains exactly 52 distinct cards |
| Primitives.HandOrdinal | src/primitives/src/primitives.rs:108-118 | each hand has a position below 4 in declaration order |
| Primitives.AllHands | src/primitives/src/primitives.rs:108-118 | the hand enumeration has four entries, and entry i is the hand at position i, so it runs North, East, South, West |
| Primitives.HandEnumerated | src/primitives/src/primitives.rs:108-118 | every hand appears in the enumeration, at the index of its position |
| Primitives.HandCmp | src/primitives/src/primitives.rs:108-118 | two hands compare Equal exactly when they are the same hand, and Less exactly when the first is listed before the second in the hand enumeration |
| Primitives.AllPlayers | src/primitives/src/primitives.rs:150-154 | the player enumeration has two distinct entries |
| Primitives.PlayerEnumerated | src/primitives/src/primitives.rs:150-154 | every player appears in the enumeration |
| Primitives.Next | src/primitives/src/primitives.rs:121-129 | the next hand is one position further round the table, modulo 4 |
| Primitives.RotateOrdinal | src/primitives/src/primitives.rs:121-129 | k applications of next move k positions round the table, modulo 4 |
| Primitives.RotateIdentityIff | src/primitives/src/primitives.rs:121-129 | k applications of next return to the start exactly when k is a multiple of 4 |
| Primitives.NextCycle | src/primitives/src/primitives.rs:121-129 | next has no fixed point and is onto; two or three steps never return to the start, and four steps always do |
| Primitives.Partner | src/primitives/src/primitives.rs:131-139 | the partner hand is two positions round the table, modulo 4 |
| Primitives.PartnerInvolution | src/primitives/src/primitives.rs:121-139 | partner is its own inverse, has no fixed point, and equals two applications of next |
| Primitives.PlayerNameOf | src/primitives/src/primitives.rs:141-146 | a hand belongs to the user exactly when its position is even (North, South); otherwise it belongs to the opponent |
| Primitives.PlayerAlternates | src/primitives/src/primitives.rs:121-146 | a hand and its partner belong to the same player, and the next hand belongs to the other player |
| Primitives.HandPartition | src/primitives/src/primitives.rs:141-146 | the user holds exactly {North, South} and the opponent exactly {East, West}; the two sets are disjoint and cover every hand |
| Primitives.PrimaryHand | src/primitives/src/primitives.rs:156-167 | a player's primary hand is one of that player's own hands |
| Primitives.PrimaryHandSection | src/primitives/src/primitives.rs:141-167 | User's primary hand is South and Opponent's is West; player_name undoes primary_hand; the opponent's primary hand plays right after the user's |

## Left out

- The `fmt::Formatter` / `write!` plumbing and its `fmt::Result` error channel. Display is modelled as pure functions returning `string`. The Display impls add no error of their own; they only pass on a failure of the formatter's underlying writer, which the model does not represent. Suit glyphs are single code points: U+2663, U+2666, U+2665, U+2660.
- The `enum_iterator::Sequence` derive comes from a foreign crate. It is replaced by literal sequences in declaration order (`AllSuits`, `AllRanks`, `AllHands`, `AllPlayers`). Only the full enumeration and its order are modelled, not the crate's `next`/`previous` stepping.
- `Debug` (the derived `{:?}` text) and `Hash` (the values fed to a `Hasher`) are not modelled. Hash's only promise, that equal values hash equally, follows from structural equality. `Copy` and `Clone` add nothing beyond value semantics, which Dafny datatypes already have.
- `PartialOrd` (`partial_cmp`, `<`, `<=`, …) is not modelled separately. For these derives it always agrees with `Ord::cmp`, which the `...Cmp` functions model.
- `PlayerName` has no order, because the source derives none.
- `AllCards` is not a function of the source. It stands for what deck-building callers do with the two enumerations and `Card::new`; the source's `Card` type does not enforce uniqueness across a collection.
