/**
 The value vocabulary of a four-seat trick-taking card game: suits, ranks,
 cards, the four hands around the table and the two players who control them.

 Every enumeration is ordered by declaration order. The model makes that order
 explicit with an ordinal per variant (its position in the declaration), and
 each `...Cmp` function is the derived three-way comparison built on it.
 */
module Primitives {
  import opened Ordering

  // ---------------------------------------------------------------------------
  // Suit
  // ---------------------------------------------------------------------------

  /** The four traditional suits, ordered Clubs < Diamonds < Hearts < Spades. */
  datatype Suit = Clubs | Diamonds | Hearts | Spades

  /** Position of a suit in declaration order. */
  function SuitOrdinal(s: Suit): (n: nat)
    ensures n < 4
  {
    match s
    case Clubs => 0
    case Diamonds => 1
    case Hearts => 2
    case Spades => 3
  }

  /** Every suit, in declaration order. */
  function AllSuits(): (r: seq<Suit>)
    ensures |r| == 4
    ensures forall i :: 0 <= i < |r| ==> SuitOrdinal(r[i]) == i
  {
    [Clubs, Diamonds, Hearts, Spades]
  }

  /** The derived order on suits: a suit is below every suit declared after it. */
  function SuitCmp(a: Suit, b: Suit): (r: Ordering)
    ensures r == Equal <==> a == b
    ensures r == Less <==> exists i, j :: 0 <= i < j < |AllSuits()| && AllSuits()[i] == a && AllSuits()[j] == b
  {
    SuitEnumerated(a);
    SuitEnumerated(b);
    CompareNat(SuitOrdinal(a), SuitOrdinal(b))
  }

  /** The glyph a suit is displayed as. */
  function SuitText(s: Suit): (t: string)
    ensures |t| == 1
    ensures t == ["♣♦♥♠"[SuitOrdinal(s)]]
  {
    match s
    case Clubs => "♣"
    case Diamonds => "♦"
    case Hearts => "♥"
    case Spades => "♠"
  }

  // ---------------------------------------------------------------------------
  // Rank
  // ---------------------------------------------------------------------------

  /** The thirteen ranks, Aces high. */
  datatype Rank = Two | Three | Four | Five | Six | Seven | Eight | Nine | Ten
                | Jack | Queen | King | Ace

  /** Position of a rank in declaration order. */
  function RankOrdinal(r: Rank): (n: nat)
    ensures n < 13
  {
    match r
    case Two => 0
    case Three => 1
    case Four => 2
    case Five => 3
    case Six => 4
    case Seven => 5
    case Eight => 6
    case Nine => 7
    case Ten => 8
    case Jack => 9
    case Queen => 10
    case King => 11
    case Ace => 12
  }

  /** Every rank, in declaration order. */
  function AllRanks(): (r: seq<Rank>)
    ensures |r| == 13
    ensures forall i :: 0 <= i < |r| ==> RankOrdinal(r[i]) == i
  {
    [Two, Three, Four, Five, Six, Seven, Eight, Nine, Ten, Jack, Queen, King, Ace]
  }

  /** The derived order on ranks: a rank is below every rank declared after it. */
  function RankCmp(a: Rank, b: Rank): (r: Ordering)
    ensures r == Equal <==> a == b
    ensures r == Less <==> exists i, j :: 0 <= i < j < |AllRanks()| && AllRanks()[i] == a && AllRanks()[j] == b
  {
    RankEnumerated(a);
    RankEnumerated(b);
    CompareNat(RankOrdinal(a), RankOrdinal(b))
  }

  /** Decimal digits of a natural number, most significant first. */
  function DecimalText(n: nat): (t: string)
    ensures |t| >= 1
    ensures forall i :: 0 <= i < |t| ==> '0' <= t[i] <= '9'
    decreases n
  {
    var digit := ['0' + (n % 10) as char];
    if n < 10 then digit else DecimalText(n / 10) + digit
  }

  /** The English letter a face rank is displayed as. */
  predicate IsFaceLetter(c: char)
  {
    c == 'J' || c == 'Q' || c == 'K' || c == 'A'
  }

  /** How a rank is displayed: a numeric rank as its value in decimal (its
      ordinal plus two), a face rank as a single letter. */
  function RankText(r: Rank): (t: string)
    ensures RankOrdinal(r) < 9 ==> t == DecimalText(RankOrdinal(r) + 2)
    ensures RankOrdinal(r) >= 9 ==> |t| == 1 && IsFaceLetter(t[0])
    ensures RankOrdinal(r) >= 9 ==> t == ["JQKA"[RankOrdinal(r) - 9]]
    ensures |t| == (if r == Ten then 2 else 1)
  {
    match r
    case Two => "2"
    case Three => "3"
    case Four => "4"
    case Five => "5"
    case Six => "6"
    case Seven => "7"
    case Eight => "8"
    case Nine => "9"
    case Ten => "10"
    case Jack => "J"
    case Queen => "Q"
    case King => "K"
    case Ace => "A"
  }

  // ---------------------------------------------------------------------------
  // Card
  // ---------------------------------------------------------------------------

  /** One of the 52 standard playing cards. */
  datatype Card = Card(suit: Suit, rank: Rank)

  /** The constructor of a card: it pairs the two arguments unchanged. */
  function NewCard(suit: Suit, rank: Rank): (c: Card)
    ensures c.suit == suit && c.rank == rank
  {
    Card(suit, rank)
  }

  /** The derived order on cards: by suit first, then by rank. It agrees with
      the order of the cards' positions in the suit-major deck. */
  function CardCmp(a: Card, b: Card): (r: Ordering)
    ensures r == CompareNat(CardOrdinal(a), CardOrdinal(b))
  {
    match SuitCmp(a.suit, b.suit)
    case Equal => RankCmp(a.rank, b.rank)
    case other => other
  }

  /** How a card is displayed: its rank text immediately followed by its suit glyph. */
  function CardText(c: Card): (t: string)
    ensures |t| == |RankText(c.rank)| + 1
    ensures t[..|t| - 1] == RankText(c.rank) && t[|t| - 1..] == SuitText(c.suit)
  {
    RankText(c.rank) + SuitText(c.suit)
  }

  /** Position of a card in the suit-major enumeration of the deck. */
  function CardOrdinal(c: Card): (n: nat)
    ensures n < 52
  {
    13 * SuitOrdinal(c.suit) + RankOrdinal(c.rank)
  }

  /** Every suit paired with every rank, suit-major, each built with NewCard. */
  function AllCards(): (deck: seq<Card>)
    ensures |deck| == 52
  {
    seq(52, i requires 0 <= i < 52 => NewCard(AllSuits()[i / 13], AllRanks()[i % 13]))
  }

  // ---------------------------------------------------------------------------
  // HandIdentifier and PlayerName
  // ---------------------------------------------------------------------------

  /** The four hands around the table, in turn order. */
  datatype HandIdentifier = North | East | South | West

  /** The two players of a round. This type has no order. */
  datatype PlayerName = User | Opponent

  /** Position of a hand in declaration (and turn) order. */
  function HandOrdinal(h: HandIdentifier): (n: nat)
    ensures n < 4
  {
    match h
    case North => 0
    case East => 1
    case South => 2
    case West => 3
  }

  /** Every hand, in declaration order. */
  function AllHands(): (r: seq<HandIdentifier>)
    ensures |r| == 4
    ensures forall i :: 0 <= i < |r| ==> HandOrdinal(r[i]) == i
  {
    [North, East, South, West]
  }

  /** Every player, in declaration order. */
  function AllPlayers(): (r: seq<PlayerName>)
    ensures |r| == 2 && r[0] != r[1]
  {
    [User, Opponent]
  }

  /** The derived order on hands (used for deterministic ordering, not for
      turns): a hand is below every hand declared after it. */
  function HandCmp(a: HandIdentifier, b: HandIdentifier): (r: Ordering)
    ensures r == Equal <==> a == b
    ensures r == Less <==> exists i, j :: 0 <= i < j < |AllHands()| && AllHands()[i] == a && AllHands()[j] == b
  {
    HandEnumerated(a);
    HandEnumerated(b);
    CompareNat(HandOrdinal(a), HandOrdinal(b))
  }

  /** The hand that plays after `h`: one step round the table. */
  function Next(h: HandIdentifier): (r: HandIdentifier)
    ensures HandOrdinal(r) == (HandOrdinal(h) + 1) % 4
  {
    match h
    case North => East
    case East => South
    case South => West
    case West => North
  }

  /** The hand sitting opposite `h`: two steps round the table. */
  function Partner(h: HandIdentifier): (r: HandIdentifier)
    ensures HandOrdinal(r) == (HandOrdinal(h) + 2) % 4
  {
    match h
    case North => South
    case East => West
    case South => North
    case West => East
  }

  /** The player who controls hand `h`: the hands at even positions (North,
      South) belong to the user, those at odd positions to the opponent. */
  function PlayerNameOf(h: HandIdentifier): (p: PlayerName)
    ensures p == User <==> HandOrdinal(h) % 2 == 0
  {
    match h
    case South | North => User
    case East | West => Opponent
  }

  /** The hand a player sees at the start of the auction, and leads from in the
      first trick when that player is the declarer. */
  function PrimaryHand(p: PlayerName): (h: HandIdentifier)
    ensures PlayerNameOf(h) == p
  {
    match p
    case User => South
    case Opponent => West
  }

  /** `k` applications of Next. */
  function Rotate(h: HandIdentifier, k: nat): HandIdentifier
    decreases k
  {
    if k == 0 then h else Next(Rotate(h, k - 1))
  }

  /** The hands controlled by player `p`. */
  function HandsOf(p: PlayerName): set<HandIdentifier>
  {
    set h | h in AllHands() && PlayerNameOf(h) == p
  }

  // ---------------------------------------------------------------------------
  // Lemmas: the orders
  // ---------------------------------------------------------------------------

  /** Each enumeration lists every variant, at the index given by its ordinal. */
  lemma SuitEnumerated(s: Suit)
    ensures AllSuits()[SuitOrdinal(s)] == s
  {
  }

  lemma RankEnumerated(r: Rank)
    ensures AllRanks()[RankOrdinal(r)] == r
  {
  }

  lemma HandEnumerated(h: HandIdentifier)
    ensures AllHands()[HandOrdinal(h)] == h
  {
  }

  lemma PlayerEnumerated(p: PlayerName)
    ensures p in AllPlayers()
  {
  }

  /** The ordinals of suits, ranks and hands identify their variants. */
  lemma OrdinalsInjective()
    ensures forall a, b :: SuitOrdinal(a) == SuitOrdinal(b) ==> a == b
    ensures forall a, b :: RankOrdinal(a) == RankOrdinal(b) ==> a == b
    ensures forall a, b :: HandOrdinal(a) == HandOrdinal(b) ==> a == b
  {
  }

  /** Suits run Clubs < Diamonds < Hearts < Spades. */
  lemma SuitOrder()
    ensures SuitCmp(Clubs, Diamonds) == Less
    ensures SuitCmp(Diamonds, Hearts) == Less
    ensures SuitCmp(Hearts, Spades) == Less
    ensures forall s :: SuitCmp(Clubs, s) != Greater && SuitCmp(Spades, s) != Less
  {
  }

  /** Two is the lowest rank, Ace the highest, and the ranks run
      Two < Three < ... < Ten < Jack < Queen < King < Ace. */
  lemma RankOrder()
    ensures forall r :: RankCmp(Two, r) != Greater && RankCmp(Ace, r) != Less
    ensures RankCmp(Two, Three) == Less && RankCmp(Three, Four) == Less
    ensures RankCmp(Four, Five) == Less && RankCmp(Five, Six) == Less
    ensures RankCmp(Six, Seven) == Less && RankCmp(Seven, Eight) == Less
    ensures RankCmp(Eight, Nine) == Less && RankCmp(Nine, Ten) == Less
    ensures RankCmp(Ten, Jack) == Less && RankCmp(Jack, Queen) == Less
    ensures RankCmp(Queen, King) == Less && RankCmp(King, Ace) == Less
  {
  }

  /** The suit, rank and hand orders are strict total orders. */
  lemma EnumOrdersTotal()
    ensures IsTotalOrder(SuitCmp)
    ensures IsTotalOrder(RankCmp)
    ensures IsTotalOrder(HandCmp)
  {
  }

  /** Card ordinals identify their cards. */
  lemma CardOrdinalInjective(a: Card, b: Card)
    ensures CardOrdinal(a) == CardOrdinal(b) <==> a == b
  {
  }

  /** Every card of a lower suit is below every card of a higher suit,
      whatever the ranks. */
  lemma SuitDominatesRank(a: Card, b: Card)
    requires SuitCmp(a.suit, b.suit) == Less
    ensures CardCmp(a, b) == Less
  {
  }

  /** Within one suit, cards compare exactly as their ranks do. */
  lemma SameSuitByRank(a: Card, b: Card)
    requires a.suit == b.suit
    ensures CardCmp(a, b) == RankCmp(a.rank, b.rank)
  {
  }

  /** Two cards compare Equal exactly when both their suits and their ranks are equal. */
  lemma CardEqualIff(a: Card, b: Card)
    ensures CardCmp(a, b) == Equal <==> a.suit == b.suit && a.rank == b.rank
  {
  }

  /** The card order is a strict total order. */
  lemma CardOrderTotal()
    ensures IsTotalOrder(CardCmp)
  {
    forall a, b
      ensures CardCmp(a, b) == Equal <==> a == b
      ensures CardCmp(b, a) == CardCmp(a, b).Reverse()
    {
      CardOrdinalInjective(a, b);
    }
  }

  // ---------------------------------------------------------------------------
  // Lemmas: the deck
  // ---------------------------------------------------------------------------

  /** The card at position i of the deck is the one whose ordinal is i. */
  lemma AllCardsAt(i: nat)
    requires i < 52
    ensures CardOrdinal(AllCards()[i]) == i
  {
  }

  /** The deck holds 52 pairwise distinct cards, contains every card, and is
      sorted ascending in card order. */
  lemma AllCardsComplete()
    ensures |AllCards()| == 52
    ensures forall i, j :: 0 <= i < j < 52 ==> AllCards()[i] != AllCards()[j]
    ensures forall c :: c in AllCards()
    ensures forall i, j :: 0 <= i < j < 52 ==> CardCmp(AllCards()[i], AllCards()[j]) == Less
  {
    var deck := AllCards();
    forall i, j | 0 <= i < j < 52
      ensures deck[i] != deck[j] && CardCmp(deck[i], deck[j]) == Less
    {
      AllCardsAt(i);
      AllCardsAt(j);
    }
    forall c
      ensures c in deck
    {
      var i := CardOrdinal(c);
      AllCardsAt(i);
      CardOrdinalInjective(deck[i], c);
    }
  }

  /** The deck has 52 distinct members. */
  lemma DeckSize()
    ensures |set c | c in AllCards()| == 52
  {
    AllCardsComplete();
    DistinctCardinality(AllCards());
  }

  /** A sequence without repetitions has as many members as elements. */
  lemma {:induction false} DistinctCardinality(s: seq<Card>)
    requires forall i, j :: 0 <= i < j < |s| ==> s[i] != s[j]
    ensures |set c | c in s| == |s|
  {
    if s != [] {
      var rest := s[1..];
      DistinctCardinality(rest);
      assert (set c | c in s) == {s[0]} + (set c | c in rest);
      assert s[0] !in rest;
    }
  }

  // ---------------------------------------------------------------------------
  // Lemmas: display
  // ---------------------------------------------------------------------------

  /** Different suits have different glyphs. */
  lemma SuitTextInjective(a: Suit, b: Suit)
    ensures SuitText(a) == SuitText(b) ==> a == b
  {
  }

  /** Different ranks have different texts. */
  lemma RankTextInjective(a: Rank, b: Rank)
    ensures RankText(a) == RankText(b) ==> a == b
  {
  }

  /** A card's text determines the card: its last character is the suit glyph
      and the rest is the rank text. */
  lemma CardTextInjective(a: Card, b: Card)
    ensures CardText(a) == CardText(b) ==> a == b
  {
  }

  /** The Ace of Spades and the Ten of Clubs as displayed. */
  lemma CardTextSamples()
    ensures CardText(NewCard(Spades, Ace)) == "A♠"
    ensures CardText(NewCard(Clubs, Ten)) == "10♣"
  {
  }

  // ---------------------------------------------------------------------------
  // Lemmas: the table
  // ---------------------------------------------------------------------------

  /** Rotating k steps moves k positions round the table. */
  lemma {:induction false} RotateOrdinal(h: HandIdentifier, k: nat)
    ensures HandOrdinal(Rotate(h, k)) == (HandOrdinal(h) + k) % 4
    decreases k
  {
    if k > 0 {
      RotateOrdinal(h, k - 1);
    }
  }

  /** Next is a cyclic permutation of period exactly four: k steps come back
      to the start exactly when k is a multiple of four. */
  lemma RotateIdentityIff(h: HandIdentifier, k: nat)
    ensures Rotate(h, k) == h <==> k % 4 == 0
  {
    RotateOrdinal(h, k);
    OrdinalsInjective();
  }

  /** Next has no fixed point, four steps are the identity, and one, two or
      three steps never are; Next is onto. */
  lemma NextCycle(h: HandIdentifier)
    ensures Next(h) != h
    ensures Next(Next(Next(Next(h)))) == h
    ensures Next(Next(h)) != h && Next(Next(Next(h))) != h
    ensures exists g :: Next(g) == h
  {
  }

  /** Partner is a fixed-point-free involution and is two steps of Next. */
  lemma PartnerInvolution(h: HandIdentifier)
    ensures Partner(Partner(h)) == h
    ensures Partner(h) != h
    ensures Partner(h) == Next(Next(h))
  {
  }

  /** A hand and its partner belong to the same player; the next hand belongs
      to the other player. */
  lemma PlayerAlternates(h: HandIdentifier)
    ensures PlayerNameOf(Partner(h)) == PlayerNameOf(h)
    ensures PlayerNameOf(Next(h)) != PlayerNameOf(h)
  {
  }

  /** The user holds exactly North and South, the opponent exactly East and
      West; together the two sets cover the table without overlap. */
  lemma HandPartition()
    ensures HandsOf(User) == {North, South}
    ensures HandsOf(Opponent) == {East, West}
    ensures HandsOf(User) !! HandsOf(Opponent)
    ensures HandsOf(User) + HandsOf(Opponent) == set h | h in AllHands()
  {
  }

  /** The primary hands are South for the user and West for the opponent;
      PrimaryHand picks one hand of each player, so PlayerNameOf undoes it,
      and the opponent's primary hand plays right after the user's. */
  lemma PrimaryHandSection(p: PlayerName)
    ensures PrimaryHand(User) == South && PrimaryHand(Opponent) == West
    ensures PlayerNameOf(PrimaryHand(p)) == p
    ensures PrimaryHand(p) in HandsOf(p)
    ensures Next(PrimaryHand(User)) == PrimaryHand(Opponent)
  {
  }
}
