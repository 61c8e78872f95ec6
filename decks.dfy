/**
 The two card decks. Each deck is a pair of piles, the cards still
 available and the cards used this game. A draw first refills an empty
 available pile with the whole used pile, then takes one card out of the
 available pile and appends it to the used pile.
 */
module Decks {
  import opened Values
  import opened Lists

  datatype Piles<T> = Piles(available: seq<T>, used: seq<T>)

  /** All cards of a deck, wherever they lie. */
  function Cards<T>(p: Piles<T>): multiset<T>
  {
    multiset(p.available) + multiset(p.used)
  }

  /**
   The refill in front of every draw: only an empty available pile is
   replaced, by the whole used pile, and the used pile is then empty.
   No card is gained or lost, and afterwards the available pile is empty
   only if the deck has no cards at all.
   */
  function Refill<T>(p: Piles<T>): (r: Piles<T>)
    ensures Cards(r) == Cards(p)
    ensures |r.available| == 0 <==> Cards(p) == multiset{}
    ensures |p.available| > 0 ==> r == p
    ensures |p.available| == 0 ==> r.used == []
  {
    if |p.available| == 0 then Piles(p.used, []) else p
  }

  /** The piles after a draw and the card drawn. */
  datatype Drawn<T> = Drawn(piles: Piles<T>, card: T)

  /**
   `get_chance` / `get_community_chest`: `pick` stands for the random
   choice among the available cards (after the refill). The first
   occurrence of the chosen text leaves the available pile and goes to the
   end of the used pile; the deck keeps exactly its cards.
   */
  function Draw<T(==)>(p: Piles<T>, pick: nat): (d: Drawn<T>)
    requires pick < |Refill(p).available|
    ensures d.card == Refill(p).available[pick]
    ensures d.piles.used == Refill(p).used + [d.card]
    ensures d.piles.available == RemoveFirst(Refill(p).available, d.card)
    ensures multiset(d.piles.available) + multiset{d.card} == multiset(Refill(p).available)
    ensures Cards(d.piles) == Cards(p)
  {
    var q := Refill(p);
    var card := q.available[pick];
    Drawn(Piles(RemoveFirst(q.available, card), q.used + [card]), card)
  }

  /** A deck that has any card at all can always be drawn from. */
  lemma DrawAlwaysPossible<T>(p: Piles<T>, deck: seq<T>)
    requires Cards(p) == multiset(deck) && deck != []
    ensures |Refill(p).available| > 0
  {
    assert deck[0] in multiset(deck);
  }

  /** While cards are available, a draw does not refill. */
  lemma DrawWithoutRefill<T>(p: Piles<T>, pick: nat)
    requires pick < |p.available|
    ensures Draw(p, pick).card == p.available[pick]
    ensures Draw(p, pick).piles == Piles(RemoveFirst(p.available, p.available[pick]), p.used + [p.available[pick]])
  {
  }

  /** Drawing from an exhausted deck first takes back every used card. */
  lemma DrawAfterExhaustion<T>(used: seq<T>, pick: nat)
    requires pick < |used|
    ensures var d := Draw(Piles([], used), pick);
      d.card == used[pick] && d.piles == Piles(RemoveFirst(used, used[pick]), [used[pick]])
  {
  }

  /** The piles after a run of draws and the cards drawn, in order. */
  datatype Run<T> = Run(piles: Piles<T>, cards: seq<T>)

  /** A run of draws with the given picks; `None` if some pick is not a valid choice. */
  function DrawRun<T(==)>(p: Piles<T>, picks: seq<nat>): (r: Option<Run<T>>)
    ensures r.Some? ==> |r.value.cards| == |picks| && Cards(r.value.piles) == Cards(p)
    decreases |picks|
  {
    if picks == [] then Some(Run(p, []))
    else if picks[0] < |Refill(p).available| then
      var d := Draw(p, picks[0]);
      match DrawRun(d.piles, picks[1..])
      case None => None
      case Some(rest) => Some(Run(rest.piles, [d.card] + rest.cards))
    else None
  }

  /** One draw of a run: the first card drawn, then the rest of the run from the piles it leaves. */
  lemma RunStep<T>(p: Piles<T>, picks: seq<nat>, run: Run<T>) returns (d: Drawn<T>, rest: Run<T>)
    requires picks != [] && DrawRun(p, picks) == Some(run)
    ensures picks[0] < |Refill(p).available| && d == Draw(p, picks[0])
    ensures DrawRun(d.piles, picks[1..]) == Some(rest)
    ensures run == Run(rest.piles, [d.card] + rest.cards)
  {
    d := Draw(p, picks[0]);
    rest := DrawRun(d.piles, picks[1..]).value;
  }

  /**
   As long as a run does not need a refill, the cards it draws are
   appended, in drawing order, to the used pile.
   */
  lemma {:induction false} RunAppendsToUsed<T>(p: Piles<T>, picks: seq<nat>, run: Run<T>)
    requires |picks| <= |p.available|
    requires DrawRun(p, picks) == Some(run)
    ensures run.piles.used == p.used + run.cards
    decreases |picks|
  {
    if picks != [] {
      var d, rest := RunStep(p, picks, run);
      assert Refill(p) == p;
      assert |d.piles.available| == |p.available| - 1;
      RunAppendsToUsed(d.piles, picks[1..], rest);
    }
  }

  /** A run without refill draws one card per pick, each from the available pile. */
  lemma {:induction false} RunTakesOnePerPick<T>(p: Piles<T>, picks: seq<nat>, run: Run<T>)
    requires |picks| <= |p.available|
    requires DrawRun(p, picks) == Some(run)
    ensures |run.cards| == |picks|
    ensures |run.piles.available| == |p.available| - |picks|
    decreases |picks|
  {
    if picks != [] {
      var d, rest := RunStep(p, picks, run);
      assert Refill(p) == p;
      assert |d.piles.available| == |p.available| - 1;
      RunTakesOnePerPick(d.piles, picks[1..], rest);
    }
  }

  /** A run without refill draws exactly the cards that leave the available pile. */
  lemma {:induction false} RunKeepsCards<T>(p: Piles<T>, picks: seq<nat>, run: Run<T>)
    requires |picks| <= |p.available|
    requires DrawRun(p, picks) == Some(run)
    ensures multiset(run.piles.available) + multiset(run.cards) == multiset(p.available)
    decreases |picks|
  {
    if picks != [] {
      var d, rest := RunStep(p, picks, run);
      assert Refill(p) == p;
      assert |d.piles.available| == |p.available| - 1;
      RunKeepsCards(d.piles, picks[1..], rest);
      calc {
        multiset(run.piles.available) + multiset(run.cards);
        multiset(rest.piles.available) + (multiset{d.card} + multiset(rest.cards));
        (multiset(rest.piles.available) + multiset(rest.cards)) + multiset{d.card};
        multiset(d.piles.available) + multiset{d.card};
        multiset(p.available);
      }
    }
  }

  /** Picking the first available card is always a valid choice while cards remain. */
  lemma {:induction false} FirstPicksSucceed<T>(p: Piles<T>, picks: seq<nat>)
    requires |picks| <= |p.available|
    requires forall j :: 0 <= j < |picks| ==> picks[j] == 0
    ensures DrawRun(p, picks).Some?
    decreases |picks|
  {
    if picks != [] {
      assert Refill(p) == p;
      var d := Draw(p, 0);
      assert |d.piles.available| == |p.available| - 1;
      FirstPicksSucceed(d.piles, picks[1..]);
    }
  }

  /**
   A full cycle: starting with every card available, as many draws as
   there are cards empty the available pile and draw each card exactly as
   often as the deck holds it; the used pile is the cards in drawing order.
   Such a cycle exists for every deck.
   */
  lemma FullCycle<T>(deck: seq<T>, picks: seq<nat>, run: Run<T>)
    requires |picks| == |deck|
    requires DrawRun(Piles(deck, []), picks) == Some(run)
    ensures run.piles.available == []
    ensures run.piles.used == run.cards
    ensures multiset(run.cards) == multiset(deck)
  {
    var p := Piles(deck, []);
    RunAppendsToUsed(p, picks, run);
    RunTakesOnePerPick(p, picks, run);
    RunKeepsCards(p, picks, run);
  }

  lemma FullCycleExists<T>(deck: seq<T>)
    ensures DrawRun(Piles(deck, []), seq(|deck|, _ => 0)).Some?
  {
    FirstPicksSucceed(Piles(deck, []), seq(|deck|, _ => 0));
  }

  // ----- the two decks as the game state sets them up -----

  /**
   The Chance cards. A deck holds cards by name, one name per distinct
   card text; `ChanceText` gives the exact text the game shows.
   */
  datatype ChanceCard =
    | AdvanceToBoardwalk | AdvanceToGo | AdvanceToIllinoisAvenue | AdvanceToStCharlesPlace
    | AdvanceToNearestRailroad | AdvanceToNearestUtility | BankPaysDividend | GetOutOfJailFree
    | GoBackThreeSpaces | GoToJail | SpeedingFine | TripToReadingRailroad
    | ElectedChairman | BuildingLoanMatures

  function ChanceText(c: ChanceCard): string
  {
    match c
    case AdvanceToBoardwalk => "Advance to Boardwalk"
    case AdvanceToGo => "Advance to Go (Collect $200)"
    case AdvanceToIllinoisAvenue => "Advance to Illinois Avenue. If you pass Go, collect $200"
    case AdvanceToStCharlesPlace => "Advance to St. Charles Place. If you pass Go, collect $200"
    case AdvanceToNearestRailroad =>
      "Advance to the nearest Railroad. If unowned, you may buy it from the Bank. If owned, "
      + "pay owner twice the rental to which they are otherwise entitled"
    case AdvanceToNearestUtility =>
      "Advance token to nearest Utility. If unowned, you may buy it from the Bank. If owned, "
      + "throw dice and pay owner a total ten times amount thrown"
    case BankPaysDividend => "Bank pays you dividend of $50"
    case GetOutOfJailFree => "Get Out of Jail Free"
    case GoBackThreeSpaces => "Go Back 3 Spaces"
    case GoToJail => "Go to Jail. Go directly to Jail, do not pass Go, do not collect $200"
    case SpeedingFine => "Speeding fine $15"
    case TripToReadingRailroad => "Take a trip to Reading Railroad. If you pass Go, collect $200"
    case ElectedChairman => "You have been elected Chairman of the Board. Pay other player $50"
    case BuildingLoanMatures => "Your building loan matures. Collect $150"
  }

  /** The Community Chest cards, named as the Chance cards are; `ChestText` gives their text. */
  datatype ChestCard =
    | CollectAtGo | BankError | DoctorsFee | SaleOfStock | OutOfJail | ToJail
    | HolidayFund | IncomeTaxRefund | Birthday | LifeInsurance | HospitalFees
    | SchoolFees | ConsultancyFee | BeautyContest | Inheritance

  function ChestText(c: ChestCard): string
  {
    match c
    case CollectAtGo => "Advance to Go (Collect $200)"
    case BankError => "Bank error in your favor. Collect $200"
    case DoctorsFee => "Doctorâ€™s fee. Pay $50"
    case SaleOfStock => "From sale of stock you get $50"
    case OutOfJail => "Get Out of Jail Free"
    case ToJail => "Go to Jail. Go directly to jail, do not pass Go, do not collect $200"
    case HolidayFund => "Holiday fund matures. Collect $100"
    case IncomeTaxRefund => "Income tax refund. Collect $20"
    case Birthday => "It is your birthday. Collect $10 from the other player"
    case LifeInsurance => "Life insurance matures. Collect $100"
    case HospitalFees => "Pay hospital fees of $100"
    case SchoolFees => "Pay school fees of $50"
    case ConsultancyFee => "Collect $25 consultancy fee"
    case BeautyContest => "You have won second prize in a beauty contest. Collect $10"
    case Inheritance => "You inherit $100"
  }

  /** The Chance deck in its starting order; the nearest-railroad card is there twice. */
  const ChanceCards: seq<ChanceCard> := [
    AdvanceToBoardwalk, AdvanceToGo, AdvanceToIllinoisAvenue, AdvanceToStCharlesPlace,
    AdvanceToNearestRailroad, AdvanceToNearestRailroad, AdvanceToNearestUtility,
    BankPaysDividend, GetOutOfJailFree, GoBackThreeSpaces, GoToJail, SpeedingFine,
    TripToReadingRailroad, ElectedChairman, BuildingLoanMatures]

  /**
   The Community Chest deck starts with one card available and the other
   fifteen used; the bank-error card is there twice.
   */
  const CommunityChestAvailable: seq<ChestCard> := [BankError]

  const CommunityChestUsed: seq<ChestCard> := [
    CollectAtGo, BankError, DoctorsFee, SaleOfStock, OutOfJail, ToJail, HolidayFund,
    IncomeTaxRefund, Birthday, LifeInsurance, HospitalFees, SchoolFees, ConsultancyFee,
    BeautyContest, Inheritance]

  /** The Chance deck as a game starts: every card available. */
  function ChanceStart(): Piles<ChanceCard>
  {
    Piles(ChanceCards, [])
  }

  /** The Community Chest deck as a game starts: one card available, fifteen used. */
  function CommunityChestStart(): Piles<ChestCard>
  {
    Piles(CommunityChestAvailable, CommunityChestUsed)
  }

  /** Both decks start with cards: 15 Chance cards and 16 Community Chest cards. */
  lemma DeckSizes()
    ensures |Cards(ChanceStart())| == 15
    ensures |Cards(CommunityChestStart())| == 16
  {
  }
}
